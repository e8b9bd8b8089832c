/**
 * The server-side collection renderer (`Ufae_Frontend_Output::render`): it
 * adds the container's attributes to the widget's render-attribute bag, then
 * echoes the shell with one card per list item, rendered by the card
 * renderer it owns.
 */
module FrontendOutput {
  import opened Values
  import opened ElementOrder
  import opened Markup
  import opened Outline
  import opened Shell
  import opened Blocks
  import opened FrontendLoop
  import opened FrontendOutline

  // ---------------------------------------------------------------------------
  // Container attributes.

  /** `$animation_dir`: '-' and the flip direction ('-left' when unset), and only for the 'flip' animation. */
  function AnimationDirection(settings: Bag): string {
    var d := Get(settings, "ufae_flip_direction");
    if FrontAnimation(settings) != Str("flip") then ""
    else if PhpFilled(d) then "-" + PhpText(d)
    else "-left"
  }

  /** The `data-ufae-animation` value before escaping. */
  function AnimationAttr(settings: Bag): string {
    PhpText(Some(FrontAnimation(settings))) + AnimationDirection(settings)
  }

  /** `$transition_time`: the setting when non-empty, else '1000'. */
  function TransitionTime(settings: Bag): string {
    var v := Get(settings, "ufae_transition_duration");
    if PhpFilled(v) then PhpText(v) else "1000"
  }

  function LayoutText(settings: Bag): string {
    PhpText(Get(settings, "ufae_layout_option"))
  }

  /** The attributes every container gets. */
  function BaseEntries(settings: Bag, widgetId: string): seq<Entry> {
    [Entry("id", [[Lit("ufae_"), Val(EscapeAttr, widgetId)]]),
     Entry("class", [[Lit("ufae-container")], [Lit("ufae-layout-"), Val(EscapeAttr, LayoutText(settings))]]),
     Entry("data-ufae-animation", [[Val(EscapeAttr, AnimationAttr(settings))]]),
     Entry("data-ufae-transition", [[Val(EscapeAttr, TransitionTime(settings))]])]
  }

  /** `data-ufae-slideview`: the escaped setting when it is set at all, else 2. */
  function FrontSlideView(settings: Bag): Markup {
    var v := Get(settings, "ufae_hr_slider_perview_control");
    if v.Some? then [Val(EscapeAttr, PhpText(v))] else [Lit("2")]
  }

  /** The attributes a horizontal container gets in addition. */
  function HorizontalEntries(settings: Bag): seq<Entry> {
    [Entry("class", [[Val(EscapeHtml, "ufae_horizontal_container")]]),
     Entry("data-ufae-slideview", [FrontSlideView(settings)])]
  }

  /** The container's bag after `render` added to `bag`. */
  function ContainerBag(settings: Bag, widgetId: string, bag: seq<Entry>): seq<Entry> {
    var b := AddEntries(bag, BaseEntries(settings, widgetId));
    if Horizontal(settings) then AddEntries(b, HorizontalEntries(settings)) else b
  }

  /**
   * On a fresh bag the container holds, each key once: its id, its two
   * classes (and the horizontal class for that layout only), the animation
   * and the transition, and for the horizontal layout only a slide count.
   */
  lemma ContainerAttributes(settings: Bag, widgetId: string)
    ensures ContainerBag(settings, widgetId, []) ==
      [Entry("id", [[Lit("ufae_"), Val(EscapeAttr, widgetId)]]),
       Entry("class", [[Lit("ufae-container")], [Lit("ufae-layout-"), Val(EscapeAttr, LayoutText(settings))]] +
                      (if Horizontal(settings) then [[Val(EscapeHtml, "ufae_horizontal_container")]] else [])),
       Entry("data-ufae-animation", [[Val(EscapeAttr, AnimationAttr(settings))]]),
       Entry("data-ufae-transition", [[Val(EscapeAttr, TransitionTime(settings))]])] +
      (if Horizontal(settings) then [Entry("data-ufae-slideview", [FrontSlideView(settings)])] else [])
    ensures UniqueKeys(ContainerBag(settings, widgetId, []))
  {
    var base := BaseEntries(settings, widgetId);
    var more := HorizontalEntries(settings);
    AddEntriesFresh(base);
    AddEntriesUnique([], base);
    AddEntriesUnique(base, more);
    if Horizontal(settings) {
      var b := AddEntries([], base);
      assert ContainerBag(settings, widgetId, []) == AddEntries(b, more);
      assert base == [base[0], base[1], base[2], base[3]];
      assert more == [more[0], more[1]];
      MergeSecondAppend(base[0], base[1], base[2], base[3], more[0], more[1]);
    } else {
      assert base[1].values + [] == base[1].values;
      assert base + [] == base;
    }
  }

  /** Four entries, then one more value for the second key and a new fifth key. */
  lemma MergeSecondAppend(a: Entry, b: Entry, c: Entry, d: Entry, e: Entry, f: Entry)
    requires a.key != e.key && b.key == e.key
    requires f.key != a.key && f.key != b.key && f.key != c.key && f.key != d.key
    ensures AddEntries([a, b, c, d], [e, f]) == [a, Entry(b.key, b.values + e.values), c, d, f]
  {
    assert [e, f][..1] == [e] && [e][..0] == [];
    assert AddEntries([a, b, c, d], [e]) == AddEntry([a, b, c, d], e);
    var merged := AddEntry([a, b, c, d], e);
    assert [a, b, c, d][1..] == [b, c, d] && [b, c, d][1..] == [c, d];
    assert AddEntry([b, c, d], e) == [Entry(b.key, b.values + e.values), c, d];
    assert merged == [a] + AddEntry([b, c, d], e);
    assert merged == [a, Entry(b.key, b.values + e.values), c, d];
    AddEntryNew(merged, f);
  }

  /** The animation attribute: the direction only for 'flip', and 'flip-left' when neither is set. */
  lemma AnimationAttrDefaults(settings: Bag)
    ensures FrontAnimation(settings) != Str("flip") ==> AnimationAttr(settings) == PhpText(Get(settings, "ufae_animation_option"))
    ensures !PhpFilled(Get(settings, "ufae_animation_option")) && !PhpFilled(Get(settings, "ufae_flip_direction")) ==>
              AnimationAttr(settings) == "flip-left"
    ensures PhpFilled(Get(settings, "ufae_flip_direction")) && FrontAnimation(settings) == Str("flip") ==>
              AnimationAttr(settings) == "flip-" + PhpText(Get(settings, "ufae_flip_direction"))
  {
  }

  // ---------------------------------------------------------------------------
  // Cards.

  /** One card per item, in list order. */
  function FrontCards(settings: Bag, items: seq<Value>, frontOrder: seq<Element>, backOrder: seq<Element>): seq<Frag> {
    if items == [] then []
    else
      FrontCards(settings, items[..|items| - 1], frontOrder, backOrder) +
      FrontCard(settings, AsBag(items[|items| - 1]), frontOrder, backOrder)
  }

  /** The repeater ids of the items, in list order. */
  function ItemIds(items: seq<Value>): (r: seq<string>)
    ensures |r| == |items|
  {
    if items == [] then [] else ItemIds(items[..|items| - 1]) + [PhpText(Get(AsBag(items[|items| - 1]), "_id"))]
  }

  /** What `render` echoes, given the container's bag at the time. */
  function FrontPage(settings: Bag, bag: seq<Entry>, frontOrder: seq<Element>, backOrder: seq<Element>): seq<Frag> {
    ShellOf(bag, Horizontal(settings), FrontCards(settings, ListItems(settings), frontOrder, backOrder))
  }

  /** The cards are rendered once each, in list order: their top-level elements are the items' card wrappers. */
  lemma {:induction false} FrontCardsLevel(settings: Bag, items: seq<Value>, frontOrder: seq<Element>, backOrder: seq<Element>)
    ensures |Level(FrontCards(settings, items, frontOrder, backOrder), [], 0)| == |items|
    ensures forall i :: 0 <= i < |items| ==>
              Level(FrontCards(settings, items, frontOrder, backOrder), [], 0)[i] == CardOpen(settings, AsBag(items[i]))
    ensures Balanced(FrontCards(settings, items, frontOrder, backOrder))
  {
    if items != [] {
      var init := items[..|items| - 1];
      var item := AsBag(items[|items| - 1]);
      var head := FrontCards(settings, init, frontOrder, backOrder);
      var card := FrontCard(settings, item, frontOrder, backOrder);
      FrontCardsLevel(settings, init, frontOrder, backOrder);
      FrontCardLevel(settings, item, frontOrder, backOrder);
      LevelConcat(head, card, [], 0);
      BalancedConcat(head, card);
      forall i | 0 <= i < |items| ensures Level(head + card, [], 0)[i] == CardOpen(settings, AsBag(items[i])) {
        if i < |init| {
          assert items[i] == init[i];
        }
      }
    }
  }

  /** The card outline of the cards lists the items' ids in list order; nothing is printed raw. */
  lemma {:induction false} FrontCardsMarks(settings: Bag, items: seq<Value>, frontOrder: seq<Element>, backOrder: seq<Element>)
    ensures CardMarks(FrontCards(settings, items, frontOrder, backOrder)) == ItemIds(items)
    ensures AllEscaped(FrontCards(settings, items, frontOrder, backOrder))
  {
    if items != [] {
      var init := items[..|items| - 1];
      var item := AsBag(items[|items| - 1]);
      var head := FrontCards(settings, init, frontOrder, backOrder);
      var card := FrontCard(settings, item, frontOrder, backOrder);
      FrontCardsMarks(settings, init, frontOrder, backOrder);
      FrontCardOutline(settings, item, frontOrder, backOrder);
      MarksConcat(head, card);
      EscapedConcat(head, card);
    }
  }

  /**
   * The page `render` echoes: `ufae-wrapper` around the container (carrying
   * the bag) and, for the horizontal layout only, the three placeholders
   * after it, even with no cards; the slider's wrappers only for the
   * horizontal layout; inside them exactly the cards, one per list item in
   * order; balanced, and nothing printed raw.
   */
  lemma FrontPageOutline(settings: Bag, bag: seq<Entry>, frontOrder: seq<Element>, backOrder: seq<Element>)
    ensures var page := FrontPage(settings, bag, frontOrder, backOrder);
      var h := Horizontal(settings);
      Balanced(page) && AllEscaped(page) &&
      Level(page, [], 0) == [Div("ufae-wrapper")] &&
      Level(page, [], 1) == [OpenBag(bag)] + (if h then PlaceholderDivs else []) &&
      (h ==> Level(page, [], 2) == [Div("ufae-swiper-container")] && Level(page, [], 3) == [Div("swiper-wrapper")]) &&
      |Level(page, [], CardDepth(h))| == |ListItems(settings)| &&
      (forall i :: 0 <= i < |ListItems(settings)| ==>
         Level(page, [], CardDepth(h))[i] == CardOpen(settings, AsBag(ListItems(settings)[i]))) &&
      CardMarks(page) == ItemIds(ListItems(settings))
  {
    var h := Horizontal(settings);
    var cards := FrontCards(settings, ListItems(settings), frontOrder, backOrder);
    FrontCardsLevel(settings, ListItems(settings), frontOrder, backOrder);
    FrontCardsMarks(settings, ListItems(settings), frontOrder, backOrder);
    ShellLevels(bag, h, cards);
    assert Level(ShellOf(bag, h, cards), [], CardDepth(h) + 0) == Level(cards, [], 0);
    ShellMarks(bag, h, cards);
    ShellEscaped(bag, h, cards);
  }

  // ---------------------------------------------------------------------------
  // The renderer object.

  class FrontendOutput {
    const settings: Bag
    const widgetId: string
    const page: Page
    const container: RenderAttributes
    const loop: FrontendLoop

    /** The card renderer works on the same settings and output and holds the resolved orders. */
    ghost predicate Valid()
      reads this, loop
    {
      loop.settings == settings && loop.page == page && loop.Valid()
    }

    /** `__construct`: keeps the settings and makes the card renderer, which resolves the orders. */
    constructor(settings: Bag, widgetId: string, page: Page, container: RenderAttributes)
      ensures this.settings == settings && this.widgetId == widgetId && this.page == page && this.container == container
      ensures fresh(loop) && Valid()
    {
      this.settings := settings;
      this.widgetId := widgetId;
      this.page := page;
      this.container := container;
      loop := new FrontendLoop(settings, page);
    }

    /** `render`. */
    method Render()
      requires Valid()
      modifies page, loop, container
      ensures Valid()
      ensures container.entries == ContainerBag(settings, widgetId, old(container.entries))
      ensures page.out == old(page.out) +
                FrontPage(settings, container.entries, FrontendOrder(settings, Front), FrontendOrder(settings, Back))
    {
      var listItems := Get(settings, "ufae_lists");
      var horizontalLayout := IsText(Get(settings, "ufae_layout_option"), "horizontal");
      AddContainerAttributes(horizontalLayout);
      ghost var start := page.out;
      ghost var head := ShellHead(container.entries, horizontalLayout);
      RenderShellStart(horizontalLayout);
      var items := if listItems.Some? && listItems.value.List? then listItems.value.elems else [];
      assert items == ListItems(settings);
      ghost var mid := page.out;
      if listItems.Some? && listItems.value.List? && |listItems.value.elems| > 0 {
        RenderCards(items);
      }
      ghost var cards := FrontCards(settings, items, FrontendOrder(settings, Front), FrontendOrder(settings, Back));
      assert page.out == mid + cards;
      Appended(start, head, cards);
      RenderShellEnd(horizontalLayout);
      Appended(start, head + cards, ShellTail(horizontalLayout));
    }

    /** The two `add_render_attribute` calls on the container. */
    method AddContainerAttributes(horizontalLayout: bool)
      requires horizontalLayout == Horizontal(settings)
      modifies container
      ensures container.entries == ContainerBag(settings, widgetId, old(container.entries))
    {
      var layout := Get(settings, "ufae_layout_option");
      var animationSetting := Get(settings, "ufae_animation_option");
      var animation := if PhpFilled(animationSetting) then animationSetting.value else Str("flip");
      var directionSetting := Get(settings, "ufae_flip_direction");
      var animationDir := if PhpFilled(directionSetting) then "-" + PhpText(directionSetting) else "-left";
      animationDir := if animation == Str("flip") then animationDir else "";
      var transitionSetting := Get(settings, "ufae_transition_duration");
      var transitionTime := if PhpFilled(transitionSetting) then PhpText(transitionSetting) else "1000";
      var horizontalContainerClass := if horizontalLayout then "ufae_horizontal_container" else "";
      container.Add([Entry("id", [[Lit("ufae_"), Val(EscapeAttr, widgetId)]]),
                     Entry("class", [[Lit("ufae-container")], [Lit("ufae-layout-"), Val(EscapeAttr, PhpText(layout))]]),
                     Entry("data-ufae-animation", [[Val(EscapeAttr, PhpText(Some(animation)) + animationDir)]]),
                     Entry("data-ufae-transition", [[Val(EscapeAttr, transitionTime)]])]);
      if horizontalLayout {
        var perview := Get(settings, "ufae_hr_slider_perview_control");
        container.Add([Entry("class", [[Val(EscapeHtml, horizontalContainerClass)]]),
                       Entry("data-ufae-slideview", [if perview.Some? then [Val(EscapeAttr, PhpText(perview))] else [Lit("2")]])]);
      }
    }

    /** The `foreach` over the list items. */
    method RenderCards(items: seq<Value>)
      requires Valid()
      modifies page, loop
      ensures Valid()
      ensures page.out == old(page.out) + FrontCards(settings, items, FrontendOrder(settings, Front), FrontendOrder(settings, Back))
    {
      ghost var start := page.out;
      for i := 0 to |items|
        invariant Valid()
        invariant page.out == start + FrontCards(settings, items[..i], FrontendOrder(settings, Front), FrontendOrder(settings, Back))
      {
        ghost var done := FrontCards(settings, items[..i], FrontendOrder(settings, Front), FrontendOrder(settings, Back));
        loop.FlipboxItems(AsBag(items[i]));
        ghost var card := FrontCard(settings, AsBag(items[i]), FrontendOrder(settings, Front), FrontendOrder(settings, Back));
        Appended(start, done, card);
        assert items[..i + 1][..i] == items[..i];
      }
      assert items[..|items|] == items;
    }

    /** The opening echoes: the outer wrapper, the container with its attributes, the slider's wrappers. */
    method RenderShellStart(horizontalLayout: bool)
      modifies page
      ensures page.out == old(page.out) + ShellHead(container.entries, horizontalLayout)
    {
      page.Echo([Div("ufae-wrapper"), OpenBag(container.entries)]);
      if horizontalLayout {
        page.Echo([Div("ufae-swiper-container"), Div("swiper-wrapper")]);
      }
    }

    /** The closing echoes: the slider's wrappers, the container, the placeholders, the outer wrapper. */
    method RenderShellEnd(horizontalLayout: bool)
      modifies page
      ensures page.out == old(page.out) + ShellTail(horizontalLayout)
    {
      if horizontalLayout {
        page.Echo([EndDiv, EndDiv]);
      }
      page.Echo([EndDiv]);
      if horizontalLayout {
        page.Echo(Placeholders());
      }
      page.Echo([EndDiv]);
    }
  }
}
