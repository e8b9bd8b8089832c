/**
 * The editor's collection template (`Ufae_Editor_Output::render`): it writes
 * the outer wrapper, adds the container's attributes to the view's
 * render-attribute bag, then writes the shell with one card per list item,
 * using the card template it owns.
 */
module EditorOutput {
  import opened Values
  import opened ElementOrder
  import opened Markup
  import opened Outline
  import opened Shell
  import opened Blocks
  import opened EditorLoop
  import opened EditorOutline

  // ---------------------------------------------------------------------------
  // Container attributes.

  /** `animation_dir`: '-' and the flip direction when truthy ('-left' otherwise), and only for the 'flip' animation. */
  function EditorDirection(settings: Bag): string {
    var d := Get(settings, "ufae_flip_direction");
    if EditorAnimation(settings) != Str("flip") then ""
    else if JsTruthy(d) then "-" + JsText(d)
    else "-left"
  }

  /** `animation + animation_dir`. */
  function EditorAnimationAttr(settings: Bag): string {
    JsString(EditorAnimation(settings)) + EditorDirection(settings)
  }

  /** `transition_time`: the setting when truthy, else '1000'. */
  function EditorTransition(settings: Bag): string {
    var v := Get(settings, "ufae_transition_duration");
    if JsTruthy(v) then JsText(v) else "1000"
  }

  /** The attributes every container gets (the editor gives the container no id). */
  function EditorBaseEntries(settings: Bag): seq<Entry> {
    [Entry("class", [[Lit("ufae-container")], [Lit("ufae-layout-"), Val(Raw, JsConcat(Get(settings, "ufae_layout_option")))]]),
     Entry("data-ufae-animation", [[Val(Raw, EditorAnimationAttr(settings))]]),
     Entry("data-ufae-transition", [[Val(Raw, EditorTransition(settings))]])]
  }

  /** `data-ufae-slideview`: the setting when truthy, else 2. */
  function EditorSlideView(settings: Bag): Markup {
    var v := Get(settings, "ufae_hr_slider_perview_control");
    if JsTruthy(v) then [Val(Raw, JsText(v))] else [Lit("2")]
  }

  /** The attributes a horizontal container gets in addition. */
  function EditorHorizontalEntries(settings: Bag): seq<Entry> {
    [Entry("class", [[Val(Raw, "ufae_horizontal_container")]]),
     Entry("data-ufae-slideview", [EditorSlideView(settings)])]
  }

  /** The view's bag after the template added to `bag`. */
  function EditorContainerBag(settings: Bag, bag: seq<Entry>): seq<Entry> {
    var b := AddEntries(bag, EditorBaseEntries(settings));
    if Horizontal(settings) then AddEntries(b, EditorHorizontalEntries(settings)) else b
  }

  /** Three entries, then one more value for the first key and a new fourth key. */
  lemma MergeFirstAppend(a: Entry, b: Entry, c: Entry, e: Entry, f: Entry)
    requires a.key == e.key
    requires f.key != a.key && f.key != b.key && f.key != c.key
    ensures AddEntries([a, b, c], [e, f]) == [Entry(a.key, a.values + e.values), b, c, f]
  {
    assert [e, f][..1] == [e] && [e][..0] == [];
    assert AddEntries([a, b, c], [e]) == AddEntry([a, b, c], e);
    var merged := AddEntry([a, b, c], e);
    assert merged == [Entry(a.key, a.values + e.values), b, c];
    AddEntryNew(merged, f);
  }

  /**
   * On a fresh bag the container holds, each key once: its two classes (and
   * the horizontal class for that layout only), the animation and the
   * transition, and for the horizontal layout only a slide count.
   */
  lemma EditorContainerAttributes(settings: Bag)
    ensures EditorContainerBag(settings, []) ==
      [Entry("class", [[Lit("ufae-container")], [Lit("ufae-layout-"), Val(Raw, JsConcat(Get(settings, "ufae_layout_option")))]] +
                      (if Horizontal(settings) then [[Val(Raw, "ufae_horizontal_container")]] else [])),
       Entry("data-ufae-animation", [[Val(Raw, EditorAnimationAttr(settings))]]),
       Entry("data-ufae-transition", [[Val(Raw, EditorTransition(settings))]])] +
      (if Horizontal(settings) then [Entry("data-ufae-slideview", [EditorSlideView(settings)])] else [])
    ensures UniqueKeys(EditorContainerBag(settings, []))
  {
    var base := EditorBaseEntries(settings);
    var more := EditorHorizontalEntries(settings);
    AddEntriesFresh(base);
    AddEntriesUnique([], base);
    AddEntriesUnique(base, more);
    if Horizontal(settings) {
      assert EditorContainerBag(settings, []) == AddEntries(base, more);
      assert base == [base[0], base[1], base[2]];
      assert more == [more[0], more[1]];
      MergeFirstAppend(base[0], base[1], base[2], more[0], more[1]);
    } else {
      assert base[0].values + [] == base[0].values;
      assert base + [] == base;
    }
  }

  /** The animation attribute: the direction only for 'flip', and 'flip-left' when neither is set. */
  lemma EditorAnimationDefaults(settings: Bag)
    ensures EditorAnimation(settings) != Str("flip") ==>
              EditorAnimationAttr(settings) == JsText(Get(settings, "ufae_animation_option"))
    ensures !JsTruthy(Get(settings, "ufae_animation_option")) && !JsTruthy(Get(settings, "ufae_flip_direction")) ==>
              EditorAnimationAttr(settings) == "flip-left"
    ensures JsTruthy(Get(settings, "ufae_flip_direction")) && EditorAnimation(settings) == Str("flip") ==>
              EditorAnimationAttr(settings) == "flip-" + JsText(Get(settings, "ufae_flip_direction"))
  {
    if EditorAnimation(settings) != Str("flip") {
      OtherAnimationAttr(settings);
    } else if JsTruthy(Get(settings, "ufae_flip_direction")) {
      FlipDirectionAttr(settings);
    } else {
      FlipLeftAttr(settings);
    }
  }

  lemma OtherAnimationAttr(settings: Bag)
    requires EditorAnimation(settings) != Str("flip")
    ensures EditorAnimationAttr(settings) == JsText(Get(settings, "ufae_animation_option"))
  {
    var a := Get(settings, "ufae_animation_option");
    assert JsTruthy(a) && EditorAnimation(settings) == a.value && EditorDirection(settings) == "";
    assert EditorAnimationAttr(settings) == JsString(a.value) + "";
  }

  lemma FlipLeftAttr(settings: Bag)
    requires EditorAnimation(settings) == Str("flip") && !JsTruthy(Get(settings, "ufae_flip_direction"))
    ensures EditorAnimationAttr(settings) == "flip-left"
  {
    assert JsString(Str("flip")) == "flip";
    assert EditorDirection(settings) == "-left";
  }

  lemma FlipDirectionAttr(settings: Bag)
    requires EditorAnimation(settings) == Str("flip") && JsTruthy(Get(settings, "ufae_flip_direction"))
    ensures EditorAnimationAttr(settings) == "flip-" + JsText(Get(settings, "ufae_flip_direction"))
  {
    var t := JsText(Get(settings, "ufae_flip_direction"));
    assert JsString(Str("flip")) == "flip";
    assert EditorDirection(settings) == "-" + t;
    assert "flip" + ("-" + t) == "flip-" + t;
  }

  // ---------------------------------------------------------------------------
  // Cards.

  /** The repeater ids of the items as the template prints them, in list order. */
  function EditorItemIds(items: seq<Value>): (r: seq<string>)
    ensures |r| == |items|
  {
    if items == [] then [] else EditorItemIds(items[..|items| - 1]) + [JsText(Get(AsBag(items[|items| - 1]), "_id"))]
  }

  /** What the template writes, given the view's bag at the time. */
  function EditorPage(settings: Bag, bag: seq<Entry>): seq<Frag> {
    ShellOf(bag, Horizontal(settings), EditorCards(settings, ListItems(settings)))
  }

  /** The opening tags of the items' card wrappers, in list order. */
  function EditorCardOpens(settings: Bag, items: seq<Value>): (r: seq<Frag>)
    ensures |r| == |items|
  {
    if items == [] then []
    else EditorCardOpens(settings, items[..|items| - 1]) + [EditorCardOpen(settings, AsBag(items[|items| - 1]))]
  }

  /** The `i`-th opening tag is the `i`-th item's. */
  lemma {:induction false} EditorCardOpensAt(settings: Bag, items: seq<Value>, i: nat)
    requires i < |items|
    ensures EditorCardOpens(settings, items)[i] == EditorCardOpen(settings, AsBag(items[i]))
    decreases |items|
  {
    var init := items[..|items| - 1];
    if i < |init| {
      EditorCardOpensAt(settings, init, i);
      assert items[i] == init[i];
    }
  }

  /** The cards are written once each, in list order: their top-level elements are the items' card wrappers. */
  lemma {:induction false} EditorCardsLevel(settings: Bag, items: seq<Value>)
    ensures Level(EditorCards(settings, items), [], 0) == EditorCardOpens(settings, items)
  {
    if items != [] {
      var init := items[..|items| - 1];
      var item := AsBag(items[|items| - 1]);
      var head := EditorCards(settings, init);
      var card := EditorCard(settings, item);
      EditorCardsLevel(settings, init);
      EditorCardsBalanced(settings, init);
      EditorCardLevel(settings, item);
      LevelConcat(head, card, [], 0);
    }
  }

  lemma {:induction false} EditorCardsBalanced(settings: Bag, items: seq<Value>)
    ensures Balanced(EditorCards(settings, items))
  {
    if items != [] {
      var init := items[..|items| - 1];
      var item := AsBag(items[|items| - 1]);
      EditorCardsBalanced(settings, init);
      EditorCardLevel(settings, item);
      BalancedConcat(EditorCards(settings, init), EditorCard(settings, item));
    }
  }

  /** The card outline of the cards lists the items' ids in list order. */
  lemma {:induction false} EditorCardsMarks(settings: Bag, items: seq<Value>)
    ensures CardMarks(EditorCards(settings, items)) == EditorItemIds(items)
  {
    if items != [] {
      var init := items[..|items| - 1];
      var item := AsBag(items[|items| - 1]);
      EditorCardsMarks(settings, init);
      EditorCardOutline(settings, item);
      MarksConcat(EditorCards(settings, init), EditorCard(settings, item));
    }
  }

  /**
   * The page the template writes: `ufae-wrapper` around the container
   * (carrying the bag) and, for the horizontal layout only, the three
   * placeholders after it, even with no cards; the slider's wrappers only
   * for the horizontal layout; inside them exactly the cards, one per list
   * item in order; balanced.
   */
  lemma EditorPageOutline(settings: Bag, bag: seq<Entry>)
    ensures var page := EditorPage(settings, bag);
      var h := Horizontal(settings);
      Balanced(page) &&
      Level(page, [], 0) == [Div("ufae-wrapper")] &&
      Level(page, [], 1) == [OpenBag(bag)] + (if h then PlaceholderDivs else []) &&
      (h ==> Level(page, [], 2) == [Div("ufae-swiper-container")] && Level(page, [], 3) == [Div("swiper-wrapper")]) &&
      Level(page, [], CardDepth(h)) == EditorCardOpens(settings, ListItems(settings)) &&
      CardMarks(page) == EditorItemIds(ListItems(settings))
  {
    var h := Horizontal(settings);
    var cards := EditorCards(settings, ListItems(settings));
    EditorCardsLevel(settings, ListItems(settings));
    EditorCardsBalanced(settings, ListItems(settings));
    EditorCardsMarks(settings, ListItems(settings));
    ShellLevels(bag, h, cards);
    assert Level(ShellOf(bag, h, cards), [], CardDepth(h) + 0) == Level(cards, [], 0);
    ShellMarks(bag, h, cards);
  }

  // ---------------------------------------------------------------------------
  // The renderer object.

  class EditorOutput {
    const settings: Bag
    const page: Page
    /** The widget view whose render-attribute bag holds the container's attributes. */
    const view: RenderAttributes
    const loop: EditorLoop

    /** The card template works on the same settings and output. */
    ghost predicate Valid()
      reads this
    {
      loop.settings == settings && loop.page == page
    }

    /** `__construct`: makes the card template. */
    constructor(settings: Bag, page: Page, view: RenderAttributes)
      ensures this.settings == settings && this.page == page && this.view == view
      ensures fresh(loop) && Valid()
    {
      this.settings := settings;
      this.page := page;
      this.view := view;
      loop := new EditorLoop(settings, page);
    }

    /** `render`'s template. */
    method Render()
      requires Valid()
      modifies page, loop, view
      ensures view.entries == EditorContainerBag(settings, old(view.entries))
      ensures page.out == old(page.out) + EditorPage(settings, view.entries)
    {
      ghost var start := page.out;
      page.Echo([Div("ufae-wrapper")]);
      var layout := Get(settings, "ufae_layout_option");
      var horizontalLayout := IsText(layout, "horizontal");
      var animationSetting := Get(settings, "ufae_animation_option");
      var animation := if JsTruthy(animationSetting) then animationSetting.value else Str("flip");
      AddContainerAttributes(horizontalLayout, animation);
      RenderContainerStart(horizontalLayout);
      ghost var head := ShellHead(view.entries, horizontalLayout);
      assert page.out == start + head;
      loop.FlipboxItems(horizontalLayout, animation);
      ghost var cards := EditorCards(settings, ListItems(settings));
      Appended(start, head, cards);
      RenderShellEnd(horizontalLayout);
      Appended(start, head + cards, ShellTail(horizontalLayout));
    }

    /** The two `addRenderAttribute` calls on the container. */
    method AddContainerAttributes(horizontalLayout: bool, animation: Value)
      requires horizontalLayout == Horizontal(settings) && animation == EditorAnimation(settings)
      modifies view
      ensures view.entries == EditorContainerBag(settings, old(view.entries))
    {
      var layout := Get(settings, "ufae_layout_option");
      var directionSetting := Get(settings, "ufae_flip_direction");
      var animationDir := if JsTruthy(directionSetting) && !IsText(directionSetting, "") then "-" + JsText(directionSetting) else "-left";
      var transitionSetting := Get(settings, "ufae_transition_duration");
      var transitionTime := if JsTruthy(transitionSetting) then JsText(transitionSetting) else "1000";
      animationDir := if animation == Str("flip") then animationDir else "";
      view.Add([Entry("class", [[Lit("ufae-container")], [Lit("ufae-layout-"), Val(Raw, JsConcat(layout))]]),
                Entry("data-ufae-animation", [[Val(Raw, JsString(animation) + animationDir)]]),
                Entry("data-ufae-transition", [[Val(Raw, transitionTime)]])]);
      if horizontalLayout {
        var horizontalContainerClass := if horizontalLayout then "ufae_horizontal_container" else "";
        var perview := Get(settings, "ufae_hr_slider_perview_control");
        view.Add([Entry("class", [[Val(Raw, horizontalContainerClass)]]),
                  Entry("data-ufae-slideview", [if JsTruthy(perview) then [Val(Raw, JsText(perview))] else [Lit("2")]])]);
      }
    }

    /** The container with the view's attributes and, for the horizontal layout, the slider's wrappers. */
    method RenderContainerStart(horizontalLayout: bool)
      modifies page
      ensures page.out == old(page.out) + ShellHead(view.entries, horizontalLayout)[1..]
    {
      page.Echo([OpenBag(view.entries)]);
      if horizontalLayout {
        page.Echo([Div("ufae-swiper-container"), Div("swiper-wrapper")]);
      }
    }

    /** The closing part: the slider's wrappers, the container, the placeholders, the outer wrapper. */
    method RenderShellEnd(horizontalLayout: bool)
      modifies page
      ensures page.out == old(page.out) + ShellTail(horizontalLayout)
    {
      if horizontalLayout {
        page.Echo([EndDiv, EndDiv]);
      }
      page.Echo([EndDiv]);
      if horizontalLayout {
        page.Echo(Placeholders());
      }
      page.Echo([EndDiv]);
    }
  }
}
