/**
 * The collection shell both renderers print around the cards: an outer
 * `ufae-wrapper`, the container div carrying the attribute bag, for the
 * horizontal layout the slider's two wrappers around the cards, and after
 * the container the slider's three placeholders.
 */
module Shell {
  import opened Markup
  import opened Outline

  /** The slider's next, previous and pagination placeholders, each an empty div. */
  const PlaceholderDivs: seq<Frag> :=
    [Div("swiper-button-next"), Div("swiper-button-prev"), Div("ufae-swiper-pagination")]

  function Placeholders(): seq<Frag> {
    [PlaceholderDivs[0], EndDiv, PlaceholderDivs[1], EndDiv, PlaceholderDivs[2], EndDiv]
  }

  /** What is printed before the cards. */
  function ShellHead(bag: seq<Entry>, horizontal: bool): seq<Frag> {
    [Div("ufae-wrapper"), OpenBag(bag)] +
    (if horizontal then [Div("ufae-swiper-container"), Div("swiper-wrapper")] else [])
  }

  /** What is printed after the cards. */
  function ShellTail(horizontal: bool): seq<Frag> {
    (if horizontal then [EndDiv, EndDiv] else []) + [EndDiv] +
    (if horizontal then Placeholders() else []) + [EndDiv]
  }

  function ShellOf(bag: seq<Entry>, horizontal: bool, cards: seq<Frag>): seq<Frag> {
    ShellHead(bag, horizontal) + cards + ShellTail(horizontal)
  }

  /** How many tags are open around the cards. */
  function CardDepth(horizontal: bool): nat {
    if horizontal then 4 else 2
  }

  /** The placeholders are three empty divs side by side. */
  lemma PlaceholderLevels()
    ensures Balanced(Placeholders())
    ensures Level(Placeholders(), [], 0) == PlaceholderDivs
    ensures forall k: nat | 0 < k :: Level(Placeholders(), [], k) == []
  {
    var p := Placeholders();
    forall i | 0 <= i < 3
      ensures Balanced([PlaceholderDivs[i]] + [] + [EndDiv])
      ensures Level([PlaceholderDivs[i]] + [] + [EndDiv], [], 0) == [PlaceholderDivs[i]]
    {
      Wrapped(PlaceholderDivs[i], []);
    }
    var a := [PlaceholderDivs[0]] + [] + [EndDiv];
    var b := [PlaceholderDivs[1]] + [] + [EndDiv];
    var c := [PlaceholderDivs[2]] + [] + [EndDiv];
    assert p == a + b + c;
    RunConcat(a, b, []);
    RunConcat(a + b, c, []);
    LevelConcat(a, b, [], 0);
    LevelConcat(a + b, c, [], 0);
    forall k: nat | 0 < k ensures Level(p, [], k) == [] {
      Wrapped(PlaceholderDivs[0], []);
      Wrapped(PlaceholderDivs[1], []);
      Wrapped(PlaceholderDivs[2], []);
      assert Level(a, [], (k - 1) + 1) == Level([], [], k - 1);
      assert Level(b, [], (k - 1) + 1) == Level([], [], k - 1);
      assert Level(c, [], (k - 1) + 1) == Level([], [], k - 1);
      LevelConcat(a, b, [], k);
      LevelConcat(a + b, c, [], k);
    }
  }

  /** The cards, inside the slider's two wrappers for the horizontal layout. */
  function Slider(horizontal: bool, cards: seq<Frag>): seq<Frag> {
    if horizontal then [Div("ufae-swiper-container")] + ([Div("swiper-wrapper")] + cards + [EndDiv]) + [EndDiv]
    else cards
  }

  lemma SliderLevels(horizontal: bool, cards: seq<Frag>)
    requires Balanced(cards)
    ensures Balanced(Slider(horizontal, cards))
    ensures horizontal ==> Level(Slider(horizontal, cards), [], 0) == [Div("ufae-swiper-container")]
    ensures horizontal ==> Level(Slider(horizontal, cards), [], 1) == [Div("swiper-wrapper")]
    ensures forall k: nat :: Level(Slider(horizontal, cards), [], (if horizontal then 2 else 0) + k) == Level(cards, [], k)
  {
    if horizontal {
      var inner := [Div("swiper-wrapper")] + cards + [EndDiv];
      Wrapped(Div("swiper-wrapper"), cards);
      Wrapped(Div("ufae-swiper-container"), inner);
      forall k: nat ensures Level(Slider(horizontal, cards), [], 2 + k) == Level(cards, [], k) {
        assert Level(Slider(horizontal, cards), [], (k + 1) + 1) == Level(inner, [], k + 1);
      }
    }
  }

  /** The container div: the bag, the slider, and after it the placeholders. */
  function Container(bag: seq<Entry>, horizontal: bool, cards: seq<Frag>): seq<Frag> {
    [OpenBag(bag)] + Slider(horizontal, cards) + [EndDiv] + (if horizontal then Placeholders() else [])
  }

  lemma ContainerLevels(bag: seq<Entry>, horizontal: bool, cards: seq<Frag>)
    requires Balanced(cards)
    ensures Balanced(Container(bag, horizontal, cards))
    ensures Level(Container(bag, horizontal, cards), [], 0) == [OpenBag(bag)] + (if horizontal then PlaceholderDivs else [])
    ensures forall k: nat :: Level(Container(bag, horizontal, cards), [], k + 1) == Level(Slider(horizontal, cards), [], k)
  {
    var box := [OpenBag(bag)] + Slider(horizontal, cards) + [EndDiv];
    var ph := if horizontal then Placeholders() else [];
    SliderLevels(horizontal, cards);
    PlaceholderLevels();
    Wrapped(OpenBag(bag), Slider(horizontal, cards));
    RunConcat(box, ph, []);
    LevelConcat(box, ph, [], 0);
    forall k: nat ensures Level(Container(bag, horizontal, cards), [], k + 1) == Level(Slider(horizontal, cards), [], k) {
      LevelConcat(box, ph, [], k + 1);
    }
  }

  /** The flat shell, read as nested wrappers. */
  lemma ShellNesting(bag: seq<Entry>, horizontal: bool, cards: seq<Frag>)
    ensures ShellOf(bag, horizontal, cards) == [Div("ufae-wrapper")] + Container(bag, horizontal, cards) + [EndDiv]
  {
    if horizontal {
      assert ShellOf(bag, horizontal, cards) ==
             [Div("ufae-wrapper")] + ([OpenBag(bag)] + Slider(horizontal, cards) + [EndDiv] + Placeholders()) + [EndDiv];
    } else {
      assert ShellOf(bag, horizontal, cards) == [Div("ufae-wrapper")] + ([OpenBag(bag)] + cards + [EndDiv] + []) + [EndDiv];
    }
  }

  /**
   * The shell's nesting: `ufae-wrapper` at the top, holding the container
   * and, for the horizontal layout only, the three placeholders after it;
   * inside the container, the slider's two wrappers for the horizontal
   * layout only; inside those, exactly the cards, whatever they are. The
   * whole is balanced when the cards are.
   */
  lemma ShellLevels(bag: seq<Entry>, horizontal: bool, cards: seq<Frag>)
    requires Balanced(cards)
    ensures Balanced(ShellOf(bag, horizontal, cards))
    ensures Level(ShellOf(bag, horizontal, cards), [], 0) == [Div("ufae-wrapper")]
    ensures Level(ShellOf(bag, horizontal, cards), [], 1) == [OpenBag(bag)] + (if horizontal then PlaceholderDivs else [])
    ensures horizontal ==> Level(ShellOf(bag, horizontal, cards), [], 2) == [Div("ufae-swiper-container")]
    ensures horizontal ==> Level(ShellOf(bag, horizontal, cards), [], 3) == [Div("swiper-wrapper")]
    ensures forall k: nat :: Level(ShellOf(bag, horizontal, cards), [], CardDepth(horizontal) + k) == Level(cards, [], k)
  {
    var c := Container(bag, horizontal, cards);
    ContainerLevels(bag, horizontal, cards);
    SliderLevels(horizontal, cards);
    Wrapped(Div("ufae-wrapper"), c);
    ShellNesting(bag, horizontal, cards);
    assert Level(ShellOf(bag, horizontal, cards), [], 0 + 1) == Level(c, [], 0);
    if horizontal {
      assert Level(ShellOf(bag, horizontal, cards), [], 1 + 1) == Level(c, [], 0 + 1);
      assert Level(ShellOf(bag, horizontal, cards), [], 2 + 1) == Level(c, [], 1 + 1);
    }
    forall k: nat ensures Level(ShellOf(bag, horizontal, cards), [], CardDepth(horizontal) + k) == Level(cards, [], k) {
      var j := (if horizontal then 2 else 0) + k;
      assert Level(ShellOf(bag, horizontal, cards), [], (j + 1) + 1) == Level(c, [], j + 1);
    }
  }

  /** The shell records no element, side or card: the outline of the whole is the cards' outline. */
  lemma ShellMarks(bag: seq<Entry>, horizontal: bool, cards: seq<Frag>)
    ensures ElementMarks(ShellOf(bag, horizontal, cards)) == ElementMarks(cards)
    ensures SideMarks(ShellOf(bag, horizontal, cards)) == SideMarks(cards)
    ensures CardMarks(ShellOf(bag, horizontal, cards)) == CardMarks(cards)
  {
    var head := ShellHead(bag, horizontal);
    var tail := ShellTail(horizontal);
    ShellPartsUnmarked(bag, horizontal);
    MarksConcat(head, cards);
    MarksConcat(head + cards, tail);
  }

  lemma ShellPartsUnmarked(bag: seq<Entry>, horizontal: bool)
    ensures Unmarked(ShellHead(bag, horizontal)) && Unmarked(ShellTail(horizontal))
  {
    ShellPlain();
    UnmarkedPlain(ShellHead(bag, horizontal));
    UnmarkedPlain(ShellTail(horizontal));
  }

  lemma ShellPlain()
    ensures ClassPlain([Lit("ufae-wrapper")]) && ClassPlain([Lit("ufae-swiper-container")])
    ensures ClassPlain([Lit("swiper-wrapper")]) && ClassPlain([Lit("swiper-button-next")])
    ensures ClassPlain([Lit("swiper-button-prev")]) && ClassPlain([Lit("ufae-swiper-pagination")])
  {
  }

  /** The shell's own tags print no value: it is escaped exactly when the cards are. */
  lemma ShellEscaped(bag: seq<Entry>, horizontal: bool, cards: seq<Frag>)
    requires AllEscaped(cards)
    ensures AllEscaped(ShellOf(bag, horizontal, cards))
  {
    EscapedConcat(ShellHead(bag, horizontal), cards);
    EscapedConcat(ShellHead(bag, horizontal) + cards, ShellTail(horizontal));
  }
}
