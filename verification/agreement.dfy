/**
 * The widget is rendered twice: by the server-side PHP renderer on the live
 * page, and by the Underscore template in the editor preview. The two are
 * meant to print the same flipbox. This module states exactly where they do:
 * which settings both copies read alike, and, under those settings, that the
 * two outlines (cards, sides and the elements shown in them) and the
 * container's attributes coincide. Where they part, a concrete setting is
 * given that shows it.
 */
module Agreement {
  import opened Strings
  import opened Values
  import opened ElementOrder
  import opened Markup
  import opened Outline
  import opened Blocks
  import opened FrontendLoop
  import opened FrontendOutline
  import opened FrontendOutput
  import opened EditorLoop
  import opened EditorOutline
  import opened EditorOutput

  // ---------------------------------------------------------------------------
  // Settings both copies read alike.

  /** A value PHP `empty` and JavaScript truthiness judge alike. */
  predicate Tame(v: Option<Value>) {
    v != Some(Str("0")) && v != Some(Obj(map[])) && v != Some(List([]))
  }

  /** A value both copies print as the same text: missing, a string or an integer. */
  predicate Scalar(v: Option<Value>) {
    v.None? || v.value.Str? || v.value.Num?
  }

  /** An element switch both copies read alike: unset, 'yes', 'no' or ''. */
  predicate PlainSwitch(v: Option<Value>) {
    v.None? || IsText(v, "yes") || IsText(v, "no") || IsText(v, "")
  }

  /** Every element switch of a side is plain. */
  predicate PlainSwitches(settings: Bag, side: Side) {
    forall e: Element :: PlainSwitch(Get(settings, EnableKey(side, e)))
  }

  /** A position setting both copies resolve alike: unset, or text without surrounding trim-space. */
  predicate PlainPosition(settings: Bag, side: Side) {
    var v := Get(settings, PositionKey(side));
    v.None? || (v.value.Str? && Trim(v.value.s) == v.value.s)
  }

  /** An image setting both copies read alike: unset, or an object whose URL is text other than "0". */
  predicate TameImage(img: Option<Value>) {
    img.None? ||
    (img.value.Obj? && "url" in img.value.fields && img.value.fields["url"].Str? && img.value.fields["url"].s != "0")
  }

  /** The item fields of a side that decide which of its elements print. */
  predicate TameItem(item: Bag, side: Side) {
    Tame(Get(item, SideKey(side, "icon_type"))) &&
    TameImage(Get(item, SideKey(side, "icon_image"))) &&
    Tame(Get(item, SideKey(side, "title"))) &&
    Tame(Get(item, SideKey(side, "description"))) &&
    Tame(Get(item, SideKey(side, "button_text")))
  }

  // ---------------------------------------------------------------------------
  // Element switches, presence and order.

  /** The two copies agree on a switch exactly when it is plain. */
  lemma EnabledAgree(settings: Bag, side: Side, e: Element)
    ensures FrontEnabled(settings, side, e) == EditorEnabled(settings, side, e) <==>
            PlainSwitch(Get(settings, EnableKey(side, e)))
  {
  }

  /** Under tame item fields, an element has content in one copy exactly when it has in the other. */
  lemma PresentAgree(item: Bag, side: Side, e: Element)
    requires TameItem(item, side)
    ensures FrontPresent(item, side, e) == EditorPresent(item, side, e)
  {
    match e
    case Icon =>
      var t := Get(item, SideKey(side, "icon_type"));
      TruthinessDiffers(t);
      var img := Get(item, SideKey(side, "icon_image"));
      assert PhpFilled(IconImageUrl(item, side)) == EditorImageShown(item, side) by {
        if img.Some? {
          assert Member(img, "url") == Some(img.value.fields["url"]);
        }
      }
    case Title =>
      TruthinessDiffers(Get(item, SideKey(side, "title")));
    case Desc =>
      TruthinessDiffers(Get(item, SideKey(side, "description")));
    case Button =>
      TruthinessDiffers(Get(item, SideKey(side, "button_text")));
      ButtonEnableYes(item, side);
      EditorButtonEnableYes(item, side);
  }

  /**
   * An image without a URL: the server leaves the icon out, the editor
   * writes an image with an empty source.
   */
  lemma ImageWithoutUrl(item: Bag, side: Side)
    requires Get(item, SideKey(side, "icon_type")) == Some(Str("image"))
    requires Get(item, SideKey(side, "icon_image")) == Some(Obj(map[]))
    ensures !FrontPresent(item, side, Icon) && EditorPresent(item, side, Icon)
  {
  }

  /** Under plain switches and tame item fields, both copies show the same elements of any order. */
  lemma {:induction false} ShownAgree(settings: Bag, item: Bag, side: Side, order: seq<Element>)
    requires PlainSwitches(settings, side) && TameItem(item, side)
    ensures FrontShown(settings, item, side, order) == EditorShown(settings, item, side, order)
  {
    if order != [] {
      var e := order[|order| - 1];
      ShownAgree(settings, item, side, order[..|order| - 1]);
      EnabledAgree(settings, side, e);
      PresentAgree(item, side, e);
    }
  }

  /** A plain position setting resolves to the same order in both copies. */
  lemma OrdersAgree(settings: Bag, side: Side)
    requires PlainPosition(settings, side)
    ensures FrontendOrder(settings, side) == EditorOrder(settings, side)
  {
    var p := EditorPosition(settings, side);
    assert PositionText(settings, side) == p;
    assert Trim(p) == p by {
      if p == "" {
        TrimOfTrimmed(p);
      }
    }
    assert FrontendOrder(settings, side) == CoreOrder(p) by {
      FrontendOrderResolves(settings, side);
    }
    assert EditorOrder(settings, side) == CoreOrder(p) by {
      EditorOrderResolves(settings, side);
    }
  }

  lemma TrimLeadingBlank(a: Element)
    ensures Trim(" " + Name(a)) == Name(a)
  {
    var s := " " + Name(a);
    NameIsLowerCase(a);
    assert LTrim(s) == Name(a) by {
      assert s[0] == ' ' && s[1..] == Name(a);
    }
  }

  lemma CoreOrderOfName(a: Element)
    ensures CoreOrder(Name(a)) == Completed([a])
  {
    NameHasNoComma(a);
    SplitWhole(Name(a), ',');
    KeepTokensSnoc([], Name(a));
    DedupSnoc([], a);
  }

  lemma CoreOrderOfBlankName(a: Element)
    ensures CoreOrder(" " + Name(a)) == Canonical
  {
    var s := " " + Name(a);
    NameHasNoComma(a);
    assert ',' !in s;
    SplitWhole(s, ',');
    LeadingSpaceNotToken(Name(a));
    assert [' '] + Name(a) == s;
    KeepTokensSnoc([], s);
    MissingFromNothing(Canonical);
  }

  /**
   * A position with a leading blank, " desc": the server trims the whole
   * setting and moves the element to the front; the editor does not trim,
   * finds no token and keeps the default order.
   */
  lemma LeadingBlankPosition(settings: Bag, side: Side, a: Element)
    requires Get(settings, PositionKey(side)) == Some(Str(" " + Name(a)))
    ensures FrontendOrder(settings, side) == Completed([a])
    ensures EditorOrder(settings, side) == Canonical
    ensures a != Icon ==> FrontendOrder(settings, side) != EditorOrder(settings, side)
  {
    var s := " " + Name(a);
    assert PositionText(settings, side) == s && EditorPosition(settings, side) == s;
    assert FrontendOrder(settings, side) == Completed([a]) by {
      FrontendOrderResolves(settings, side);
      TrimLeadingBlank(a);
      CoreOrderOfName(a);
    }
    assert EditorOrder(settings, side) == Canonical by {
      EditorOrderResolves(settings, side);
      CoreOrderOfBlankName(a);
    }
    assert Completed([a])[0] == a;
  }

  // ---------------------------------------------------------------------------
  // Cards.

  /** The two copies choose the curtain plan on exactly the same settings. */
  lemma CurtainAgrees(settings: Bag)
    ensures FrontAnimation(settings) == Str("curtain") <==> EditorAnimation(settings) == Str("curtain")
  {
  }

  /** Whatever the settings, a card holds the same sides in the same order in both copies. */
  lemma CardSidesAgree(settings: Bag, item: Bag, frontOrder: seq<Element>, backOrder: seq<Element>)
    ensures SideMarks(FrontCard(settings, item, frontOrder, backOrder)) == SideMarks(EditorCard(settings, item))
  {
    FrontCardOutline(settings, item, frontOrder, backOrder);
    EditorCardOutline(settings, item);
    CurtainAgrees(settings);
  }

  /** The settings under which a card's outline is the same in both copies. */
  predicate CardReadAlike(settings: Bag, item: Bag) {
    PlainSwitches(settings, Front) && PlainSwitches(settings, Back) &&
    PlainPosition(settings, Front) && PlainPosition(settings, Back) &&
    TameItem(item, Front) && TameItem(item, Back) &&
    Scalar(Get(item, "_id"))
  }

  /**
   * With the orders the server resolves, a card read alike has the same
   * repeater id, the same sides and the same elements on each side in both
   * copies.
   */
  lemma CardOutlinesAgree(settings: Bag, item: Bag)
    requires CardReadAlike(settings, item)
    ensures var card := FrontCard(settings, item, FrontendOrder(settings, Front), FrontendOrder(settings, Back));
      CardMarks(card) == CardMarks(EditorCard(settings, item)) &&
      SideMarks(card) == SideMarks(EditorCard(settings, item)) &&
      ElementMarks(card) == ElementMarks(EditorCard(settings, item))
  {
    var fo := FrontendOrder(settings, Front);
    var bo := FrontendOrder(settings, Back);
    FrontCardOutline(settings, item, fo, bo);
    EditorCardOutline(settings, item);
    CurtainAgrees(settings);
    SameText(Get(item, "_id"));
    OrdersAgree(settings, Front);
    OrdersAgree(settings, Back);
    ShownAgree(settings, item, Front, fo);
    ShownAgree(settings, item, Back, bo);
  }

  /** The repeater ids of the cards agree when every id is text or a number. */
  lemma {:induction false} ItemIdsAgree(items: seq<Value>)
    requires forall i :: 0 <= i < |items| ==> Scalar(Get(AsBag(items[i]), "_id"))
    ensures ItemIds(items) == EditorItemIds(items)
  {
    if items != [] {
      ItemIdsAgree(items[..|items| - 1]);
      SameText(Get(AsBag(items[|items| - 1]), "_id"));
    }
  }

  /** Both pages hold the cards of the same items, in the same order. */
  lemma PageCardsAgree(settings: Bag, bag: seq<Entry>, view: seq<Entry>, frontOrder: seq<Element>, backOrder: seq<Element>)
    requires forall i :: 0 <= i < |ListItems(settings)| ==> Scalar(Get(AsBag(ListItems(settings)[i]), "_id"))
    ensures CardMarks(FrontPage(settings, bag, frontOrder, backOrder)) == CardMarks(EditorPage(settings, view))
  {
    FrontPageOutline(settings, bag, frontOrder, backOrder);
    EditorPageOutline(settings, view);
    ItemIdsAgree(ListItems(settings));
  }

  // ---------------------------------------------------------------------------
  // The container's attributes.

  /** The text of markup with every value as given, before escaping. */
  function PiecesText(m: Markup): string {
    if m == [] then "" else PiecesText(m[..|m| - 1]) + m[|m| - 1].text
  }

  /** Two entries have the same key and, value by value, the same texts. */
  predicate EntryPrintsAlike(e1: Entry, e2: Entry) {
    e1.key == e2.key && |e1.values| == |e2.values| &&
    forall j :: 0 <= j < |e1.values| ==> PiecesText(e1.values[j]) == PiecesText(e2.values[j])
  }

  /** Two attribute bags hold, entry by entry, the same keys and value texts. */
  predicate BagPrintsAlike(b1: seq<Entry>, b2: seq<Entry>) {
    |b1| == |b2| && forall i :: 0 <= i < |b1| ==> EntryPrintsAlike(b1[i], b2[i])
  }

  /** The container settings both copies print alike. */
  predicate ContainerReadAlike(settings: Bag) {
    var layout := Get(settings, "ufae_layout_option");
    var perView := Get(settings, "ufae_hr_slider_perview_control");
    layout.Some? && Scalar(layout) &&
    Scalar(Get(settings, "ufae_animation_option")) && Tame(Get(settings, "ufae_animation_option")) &&
    Scalar(Get(settings, "ufae_flip_direction")) && Tame(Get(settings, "ufae_flip_direction")) &&
    Scalar(Get(settings, "ufae_transition_duration")) && Tame(Get(settings, "ufae_transition_duration")) &&
    (perView.None? || (Scalar(perView) && JsTruthy(perView)))
  }

  lemma AnimationAgrees(settings: Bag)
    requires ContainerReadAlike(settings)
    ensures AnimationAttr(settings) == EditorAnimationAttr(settings)
  {
    TruthinessDiffers(Get(settings, "ufae_animation_option"));
    TruthinessDiffers(Get(settings, "ufae_flip_direction"));
    assert FrontAnimation(settings) == EditorAnimation(settings);
    SameText(Some(FrontAnimation(settings)));
    SameText(Get(settings, "ufae_flip_direction"));
  }

  lemma TransitionAgrees(settings: Bag)
    requires ContainerReadAlike(settings)
    ensures TransitionTime(settings) == EditorTransition(settings)
  {
    TruthinessDiffers(Get(settings, "ufae_transition_duration"));
    SameText(Get(settings, "ufae_transition_duration"));
  }

  lemma SlideViewAgrees(settings: Bag)
    requires ContainerReadAlike(settings)
    ensures PiecesText(FrontSlideView(settings)) == PiecesText(EditorSlideView(settings))
  {
    SameText(Get(settings, "ufae_hr_slider_perview_control"));
  }

  /**
   * On container settings read alike, the server's container carries its id
   * followed by the editor's attributes, with the same texts.
   */
  lemma ContainersAgree(settings: Bag, widgetId: string)
    requires ContainerReadAlike(settings)
    ensures var front := ContainerBag(settings, widgetId, []);
      |front| > 0 && front[0] == Entry("id", [[Lit("ufae_"), Val(EscapeAttr, widgetId)]]) &&
      BagPrintsAlike(front[1..], EditorContainerBag(settings, []))
  {
    ContainerAttributes(settings, widgetId);
    EditorContainerAttributes(settings);
    SameText(Get(settings, "ufae_layout_option"));
    AnimationAgrees(settings);
    TransitionAgrees(settings);
    if Horizontal(settings) {
      SlideViewAgrees(settings);
    }
    ContainerShapesAlike(Horizontal(settings), widgetId, LayoutText(settings),
      AnimationAttr(settings), TransitionTime(settings), FrontSlideView(settings), EditorSlideView(settings));
  }

  /** The two container shapes, with the same layout, animation, transition and slide-count texts, print alike. */
  lemma ContainerShapesAlike(h: bool, widgetId: string, layout: string, animation: string, transition: string,
                             frontView: Markup, editorView: Markup)
    requires h ==> PiecesText(frontView) == PiecesText(editorView)
    ensures var front :=
      [Entry("id", [[Lit("ufae_"), Val(EscapeAttr, widgetId)]]),
       Entry("class", [[Lit("ufae-container")], [Lit("ufae-layout-"), Val(EscapeAttr, layout)]] +
                      (if h then [[Val(EscapeHtml, "ufae_horizontal_container")]] else [])),
       Entry("data-ufae-animation", [[Val(EscapeAttr, animation)]]),
       Entry("data-ufae-transition", [[Val(EscapeAttr, transition)]])] +
      (if h then [Entry("data-ufae-slideview", [frontView])] else []);
    var editor :=
      [Entry("class", [[Lit("ufae-container")], [Lit("ufae-layout-"), Val(Raw, layout)]] +
                      (if h then [[Val(Raw, "ufae_horizontal_container")]] else [])),
       Entry("data-ufae-animation", [[Val(Raw, animation)]]),
       Entry("data-ufae-transition", [[Val(Raw, transition)]])] +
      (if h then [Entry("data-ufae-slideview", [editorView])] else []);
    BagPrintsAlike(front[1..], editor)
  {
    var c1 := [[Lit("ufae-container")], [Lit("ufae-layout-"), Val(EscapeAttr, layout)]];
    var c2 := [[Lit("ufae-container")], [Lit("ufae-layout-"), Val(Raw, layout)]];
    var e1 := if h then [[Val(EscapeHtml, "ufae_horizontal_container")]] else [];
    var e2 := if h then [[Val(Raw, "ufae_horizontal_container")]] else [];
    PiecesTextTwo(Lit("ufae-layout-"), Val(EscapeAttr, layout));
    PiecesTextTwo(Lit("ufae-layout-"), Val(Raw, layout));
    PiecesTextOne(Val(EscapeHtml, "ufae_horizontal_container"));
    PiecesTextOne(Val(Raw, "ufae_horizontal_container"));
    ClassValuesAlike(c1, c2, e1, e2);
    PiecesTextOne(Val(EscapeAttr, animation));
    PiecesTextOne(Val(Raw, animation));
    PiecesTextOne(Val(EscapeAttr, transition));
    PiecesTextOne(Val(Raw, transition));
  }

  /** Class values that print alike, value by value, before and after their extras, print alike. */
  lemma ClassValuesAlike(c1: seq<Markup>, c2: seq<Markup>, e1: seq<Markup>, e2: seq<Markup>)
    requires |c1| == |c2| && forall j :: 0 <= j < |c1| ==> PiecesText(c1[j]) == PiecesText(c2[j])
    requires |e1| == |e2| && forall j :: 0 <= j < |e1| ==> PiecesText(e1[j]) == PiecesText(e2[j])
    ensures EntryPrintsAlike(Entry("class", c1 + e1), Entry("class", c2 + e2))
  {
    forall j | 0 <= j < |c1 + e1|
      ensures PiecesText((c1 + e1)[j]) == PiecesText((c2 + e2)[j])
    {
      if j >= |c1| {
        assert (c1 + e1)[j] == e1[j - |c1|];
        assert (c2 + e2)[j] == e2[j - |c2|];
      } else {
        assert (c1 + e1)[j] == c1[j];
        assert (c2 + e2)[j] == c2[j];
      }
    }
  }

  lemma PiecesTextOne(a: Piece)
    ensures PiecesText([a]) == a.text
  {
  }

  lemma PiecesTextTwo(a: Piece, b: Piece)
    ensures PiecesText([a, b]) == a.text + b.text
  {
    assert [a, b][..1] == [a];
    PiecesTextOne(a);
  }

  /**
   * A slide count set to '': the server prints it as given, the editor
   * falls back to two slides.
   */
  lemma EmptySlideView(settings: Bag)
    requires Get(settings, "ufae_hr_slider_perview_control") == Some(Str(""))
    ensures PiecesText(FrontSlideView(settings)) == "" && PiecesText(EditorSlideView(settings)) == "2"
  {
  }
}
