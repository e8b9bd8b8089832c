/**
 * The element order of one flipbox side: a permutation of the four element
 * tokens `icon`, `title`, `desc`, `button`, resolved from a free-text,
 * comma-separated position setting.
 *
 * Both renderers resolve the order with the same steps (split on ',', drop
 * empty fragments, drop repeated fragments keeping the first, keep the exact
 * tokens, append the missing tokens in canonical order), guarded by a regular
 * expression that looks for a word-bounded token. `CoreOrder` is the reference
 * definition of those steps; the two copies are proved equal to it in their
 * own modules, and this module proves what every such order satisfies.
 */
module ElementOrder {
  import opened Strings
  import opened Values

  datatype Element = Icon | Title | Desc | Button

  datatype Side = Front | Back

  /** The token that names an element in a position setting and in setting keys. */
  function Name(e: Element): string {
    match e
    case Icon => "icon"
    case Title => "title"
    case Desc => "desc"
    case Button => "button"
  }

  function SideName(s: Side): string {
    match s
    case Front => "front"
    case Back => "back"
  }

  /** The setting or item key `ufae_<side>_<field>`. */
  function SideKey(side: Side, field: string): string {
    "ufae_" + SideName(side) + "_" + field
  }

  /** The widget setting holding a side's position string. */
  function PositionKey(side: Side): string {
    SideKey(side, "element_position")
  }

  /** The widget setting switching an element of a side on or off. */
  function EnableKey(side: Side, e: Element): string {
    SideKey(side, Name(e) + "_enable")
  }

  /** The default order of both sides. */
  const Canonical: seq<Element> := [Icon, Title, Desc, Button]

  predicate Distinct<T(==)>(xs: seq<T>) {
    forall i, j :: 0 <= i < j < |xs| ==> xs[i] != xs[j]
  }

  /** An element order: every element exactly once. */
  predicate IsPermutation(o: seq<Element>) {
    multiset(o) == multiset(Canonical)
  }

  /** Recognises a fragment that is exactly one of the four tokens (no trimming, case-sensitive). */
  function Parse(f: string): (r: Option<Element>)
    ensures r.Some? ==> Name(r.value) == f
    ensures forall e :: Name(e) == f ==> r == Some(e)
  {
    if f == "icon" then Some(Icon)
    else if f == "title" then Some(Title)
    else if f == "desc" then Some(Desc)
    else if f == "button" then Some(Button)
    else None
  }

  /** The fragments that are tokens, as elements, in their order (the `in_array` / `includes` filter). */
  function KeepTokens(xs: seq<string>): (r: seq<Element>)
    ensures |r| <= |xs|
  {
    if xs == [] then []
    else
      KeepTokens(xs[..|xs| - 1]) + Token(xs[|xs| - 1])
  }

  /** One fragment's contribution: its element when it is a token, nothing otherwise. */
  function Token(x: string): (r: seq<Element>)
    ensures r == [] <==> Parse(x).None?
  {
    match Parse(x)
    case Some(e) => [e]
    case None => []
  }

  /** The first occurrence of each value, in order (`array_unique` / `new Set`). */
  function Dedup<T(==,!new)>(xs: seq<T>): (r: seq<T>)
    ensures forall x :: x in r <==> x in xs
    ensures Distinct(r)
  {
    if xs == [] then []
    else
      var d := Dedup(xs[..|xs| - 1]);
      var x := xs[|xs| - 1];
      if x in d then d else d + [x]
  }

  /** The position of the first occurrence of `x` in `xs`. */
  function FirstIndex<T(==)>(xs: seq<T>, x: T): (i: nat)
    requires x in xs
    ensures i < |xs| && xs[i] == x
    ensures forall k :: 0 <= k < i ==> xs[k] != x
  {
    if xs[0] == x then 0 else 1 + FirstIndex(xs[1..], x)
  }

  /** Appending a value moves no earlier first occurrence. */
  lemma FirstIndexSnoc<T>(xs: seq<T>, x: T, y: T)
    requires y in xs
    ensures FirstIndex(xs + [x], y) == FirstIndex(xs, y)
  {
    assert (xs + [x])[FirstIndex(xs, y)] == y;
  }

  /** `Dedup` lists the values in the order of their first occurrences. */
  lemma {:induction false} DedupKeepsFirstOrder<T(!new)>(xs: seq<T>)
    ensures forall i, j :: 0 <= i < j < |Dedup(xs)| ==> FirstIndex(xs, Dedup(xs)[i]) < FirstIndex(xs, Dedup(xs)[j])
  {
    if xs != [] {
      var init := xs[..|xs| - 1];
      var x := xs[|xs| - 1];
      var d := Dedup(init);
      DedupKeepsFirstOrder(init);
      assert xs == init + [x];
      forall y | y in init
        ensures FirstIndex(xs, y) == FirstIndex(init, y)
      {
        FirstIndexSnoc(init, x, y);
      }
      var r := Dedup(xs);
      assert r == if x in init then d else d + [x];
      forall i, j | 0 <= i < j < |r|
        ensures FirstIndex(xs, r[i]) < FirstIndex(xs, r[j])
      {
        assert r[i] == d[i] && d[i] in init;
        assert FirstIndex(xs, d[i]) == FirstIndex(init, d[i]) < |init|;
        if j < |d| {
          assert r[j] == d[j] && d[j] in init;
          assert FirstIndex(xs, d[j]) == FirstIndex(init, d[j]);
          assert FirstIndex(init, d[i]) < FirstIndex(init, d[j]);
        } else {
          assert r[j] == x && x !in init;
          assert FirstIndex(xs, x) == |init|;
        }
      }
    }
  }

  /** The elements of `cs` that `p` lacks, in the order of `cs` (`array_diff($cs, $p)`). */
  function MissingFrom(p: seq<Element>, cs: seq<Element>): seq<Element> {
    if cs == [] then []
    else
      MissingFrom(p, cs[..|cs| - 1]) + (if cs[|cs| - 1] in p then [] else [cs[|cs| - 1]])
  }

  /** The missing elements are those of `cs` that `p` does not list. */
  lemma {:induction false} MissingFromMembers(p: seq<Element>, cs: seq<Element>)
    ensures forall e :: e in MissingFrom(p, cs) <==> e in cs && e !in p
  {
    if cs != [] {
      MissingFromMembers(p, cs[..|cs| - 1]);
      assert cs == cs[..|cs| - 1] + [cs[|cs| - 1]];
    }
  }

  /** An explicit prefix completed with the missing elements in canonical order. */
  function Completed(p: seq<Element>): seq<Element> {
    p + MissingFrom(p, Canonical)
  }

  /**
   * The reference resolution of a position string: the distinct tokens it
   * lists, in first-seen order, then the others in canonical order.
   */
  function CoreOrder(s: string): (o: seq<Element>) {
    Completed(Dedup(KeepTokens(Split(s, ','))))
  }

  /** `[A-Za-z0-9_]`, the characters regular-expression `\b` treats as word characters. */
  predicate IsWordChar(c: char) {
    ('a' <= c <= 'z') || ('A' <= c <= 'Z') || ('0' <= c <= '9') || c == '_'
  }

  /** Token `e` occurs at position `p` of `s` with a word boundary on both sides. */
  predicate WordTokenAt(s: string, p: nat, e: Element) {
    p + |Name(e)| <= |s| && s[p..p + |Name(e)|] == Name(e) &&
    (p == 0 || !IsWordChar(s[p - 1])) &&
    (p + |Name(e)| == |s| || !IsWordChar(s[p + |Name(e)|]))
  }

  /** Some token occurs word-bounded at position `p` of `s` or later. */
  predicate WordTokenFrom(s: string, p: nat)
    decreases |s| - p
  {
    p <= |s| &&
    (WordTokenAt(s, p, Icon) || WordTokenAt(s, p, Title) || WordTokenAt(s, p, Desc) || WordTokenAt(s, p, Button) ||
     WordTokenFrom(s, p + 1))
  }

  /** The guard `/\b(icon|title|desc|button)\b/` matches somewhere in `s`. */
  predicate HasWordToken(s: string) {
    WordTokenFrom(s, 0)
  }

  /** A token found at `p` is found by the scan from any earlier position. */
  lemma {:induction false} WordTokenFound(s: string, q: nat, p: nat, e: Element)
    requires q <= p && WordTokenAt(s, p, e)
    ensures WordTokenFrom(s, q)
    decreases p - q
  {
    if q < p {
      WordTokenFound(s, q + 1, p, e);
    }
  }

  // ---------------------------------------------------------------------------
  // Every resolved order is a permutation.

  lemma {:induction false} CountInDistinct(p: seq<Element>, e: Element)
    requires Distinct(p)
    ensures multiset(p)[e] == if e in p then 1 else 0
  {
    if p != [] {
      var init := p[..|p| - 1];
      assert p == init + [p[|p| - 1]];
      CountInDistinct(init, e);
    }
  }

  lemma {:induction false} CountInMissing(p: seq<Element>, cs: seq<Element>, e: Element)
    requires Distinct(cs)
    ensures multiset(MissingFrom(p, cs))[e] == if e in cs && e !in p then 1 else 0
  {
    if cs != [] {
      var init := cs[..|cs| - 1];
      assert cs == init + [cs[|cs| - 1]];
      CountInMissing(p, init, e);
    }
  }

  lemma CanonicalHasAll(e: Element)
    ensures e in Canonical
  {
    match e
    case Icon => assert Canonical[0] == e;
    case Title => assert Canonical[1] == e;
    case Desc => assert Canonical[2] == e;
    case Button => assert Canonical[3] == e;
  }

  lemma CanonicalCount(e: Element)
    ensures multiset(Canonical)[e] == 1
  {
    CanonicalHasAll(e);
    CountInDistinct(Canonical, e);
  }

  lemma CompletedCount(p: seq<Element>, e: Element)
    requires Distinct(p)
    ensures multiset(Completed(p))[e] == 1
  {
    CanonicalHasAll(e);
    CountInDistinct(p, e);
    CountInMissing(p, Canonical, e);
    assert multiset(Completed(p)) == multiset(p) + multiset(MissingFrom(p, Canonical));
  }

  /** A distinct explicit prefix always completes to a permutation. */
  lemma CompletedIsPermutation(p: seq<Element>)
    requires Distinct(p)
    ensures IsPermutation(Completed(p))
  {
    forall e: Element ensures multiset(Completed(p))[e] == multiset(Canonical)[e] {
      CompletedCount(p, e);
      CanonicalCount(e);
    }
  }

  /** Whatever the position string, the resolved order holds each of the four elements exactly once. */
  lemma CoreOrderIsPermutation(s: string)
    ensures IsPermutation(CoreOrder(s))
  {
    CompletedIsPermutation(Dedup(KeepTokens(Split(s, ','))));
  }

  /** A permutation has four distinct entries. */
  lemma PermutationDistinct(o: seq<Element>)
    requires IsPermutation(o)
    ensures |o| == 4 && Distinct(o) && forall e :: e in o
  {
    assert |o| == |multiset(o)| == |multiset(Canonical)| == 4;
    forall e: Element ensures e in o {
      CanonicalCount(e);
      assert e in multiset(o);
    }
    forall i, j | 0 <= i < j < |o| ensures o[i] != o[j] {
      if o[i] == o[j] {
        var x := o[i];
        assert o == o[..i] + [x] + o[i + 1..j] + [x] + o[j + 1..];
        assert multiset(o)[x] >= 2;
        CanonicalCount(x);
        assert false;
      }
    }
  }

  // ---------------------------------------------------------------------------
  // What the resolved order is.

  lemma {:induction false} KeepTokensMembers(xs: seq<string>, e: Element)
    ensures e in KeepTokens(xs) <==> Name(e) in xs
  {
    if xs != [] {
      var init := xs[..|xs| - 1];
      assert xs == init + [xs[|xs| - 1]];
      KeepTokensMembers(init, e);
    }
  }

  lemma KeepTokensSnoc(xs: seq<string>, x: string)
    ensures KeepTokens(xs + [x]) == KeepTokens(xs) + Token(x)
  {
    assert (xs + [x])[..|xs|] == xs;
  }

  lemma DedupSnoc<T(!new)>(xs: seq<T>, x: T)
    ensures Dedup(xs + [x]) == if x in xs then Dedup(xs) else Dedup(xs) + [x]
  {
    assert (xs + [x])[..|xs|] == xs;
  }

  /** Filtering for tokens commutes with dropping repeats. */
  lemma {:induction false} KeepTokensDedup(xs: seq<string>)
    ensures KeepTokens(Dedup(xs)) == Dedup(KeepTokens(xs))
  {
    if xs != [] {
      var init := xs[..|xs| - 1];
      var x := xs[|xs| - 1];
      assert xs == init + [x];
      KeepTokensDedup(init);
      var d := Dedup(init);
      var k := KeepTokens(init);
      KeepTokensSnoc(init, x);
      DedupSnoc(init, x);
      if Parse(x).Some? {
        var e := Parse(x).value;
        KeepTokensMembers(init, e);
        DedupSnoc(k, e);
        if x !in init {
          KeepTokensSnoc(d, x);
        }
      } else {
        assert k + Token(x) == k;
        if x !in init {
          KeepTokensSnoc(d, x);
          assert KeepTokens(d) + Token(x) == KeepTokens(d);
        }
      }
    }
  }

  lemma {:induction false} KeepTokensPointwise(xs: seq<string>, ys: seq<string>)
    requires |xs| == |ys|
    requires forall i :: 0 <= i < |xs| ==> Parse(xs[i]) == Parse(ys[i])
    ensures KeepTokens(xs) == KeepTokens(ys)
  {
    if xs != [] {
      KeepTokensPointwise(xs[..|xs| - 1], ys[..|ys| - 1]);
    }
  }

  /** Escaping cannot turn a fragment into a token or a token into something else. */
  lemma ParseEscHtml(f: string)
    ensures Parse(EscHtml(f)) == Parse(f)
  {
    if Parse(EscHtml(f)).Some? {
      EscHtmlUnchangedWithoutAmp(f);
    } else if Parse(f).Some? {
      EscHtmlOfPlain(f);
    }
  }

  /** `esc_html` applied to the position string before it is split changes no resolved order. */
  lemma CoreOrderEscHtml(s: string)
    ensures CoreOrder(EscHtml(s)) == CoreOrder(s)
  {
    SplitEscHtml(s);
    var xs := Split(s, ',');
    forall i | 0 <= i < |xs| ensures Parse(EscAll(xs)[i]) == Parse(xs[i]) {
      EscAllAt(xs, i);
      ParseEscHtml(xs[i]);
    }
    KeepTokensPointwise(EscAll(xs), xs);
  }

  lemma {:induction false} EscAllAt(xs: seq<string>, i: nat)
    requires i < |xs|
    ensures EscAll(xs)[i] == EscHtml(xs[i])
  {
    if i > 0 {
      EscAllAt(xs[1..], i - 1);
    }
  }

  lemma {:induction false} KeepTokensNone(xs: seq<string>)
    requires forall x :: x in xs ==> Parse(x).None?
    ensures KeepTokens(xs) == []
  {
    if xs != [] {
      KeepTokensNone(xs[..|xs| - 1]);
    }
  }

  lemma {:induction false} MissingFromNothing(cs: seq<Element>)
    ensures MissingFrom([], cs) == cs
  {
    if cs != [] {
      MissingFromNothing(cs[..|cs| - 1]);
    }
  }

  /**
   * The regular-expression guard changes nothing: a string in which no
   * word-bounded token occurs has no fragment that is exactly a token, so it
   * resolves to the default order anyway.
   */
  lemma NoWordTokenGivesDefault(s: string)
    requires !HasWordToken(s)
    ensures CoreOrder(s) == Canonical
  {
    NoWordTokenKeepsNothing(s);
    assert Dedup<Element>([]) == [];
    MissingFromNothing(Canonical);
  }

  lemma NoWordTokenKeepsNothing(s: string)
    requires !HasWordToken(s)
    ensures KeepTokens(Split(s, ',')) == []
  {
    var xs := Split(s, ',');
    forall x | x in xs ensures Parse(x).None? {
      if Parse(x).Some? {
        var e := Parse(x).value;
        var k :| 0 <= k < |xs| && xs[k] == x;
        var p := SplitPosition(s, ',', k);
        WordTokenFound(s, 0, p, e);
        assert false;
      }
    }
    KeepTokensNone(xs);
  }

  /** Short strings hold no token at all. */
  lemma ShortHasNoWordToken(s: string)
    requires |s| < 4
    ensures !HasWordToken(s)
  {
    ShortScan(s, 0);
  }

  lemma {:induction false} ShortScan(s: string, p: nat)
    requires |s| < 4
    ensures !WordTokenFrom(s, p)
    decreases |s| - p
  {
    if p <= |s| {
      ShortScan(s, p + 1);
    }
  }

  /** An empty position string resolves to the default order. */
  lemma EmptyGivesDefault()
    ensures CoreOrder("") == Canonical
  {
    ShortHasNoWordToken("");
    NoWordTokenGivesDefault("");
  }

  /**
   * The loop both renderers run over the listed names, keeping those that
   * are among the predefined elements (`in_array` / `includes`), in order.
   */
  method KnownElements(elementNames: seq<string>) returns (known: seq<Element>)
    ensures known == KeepTokens(elementNames)
  {
    known := [];
    for i := 0 to |elementNames|
      invariant known == KeepTokens(elementNames[..i])
    {
      assert elementNames[..i + 1] == elementNames[..i] + [elementNames[i]];
      KeepTokensSnoc(elementNames[..i], elementNames[i]);
      var element := Parse(elementNames[i]);
      if element.Some? {
        known := known + [element.value];
      }
    }
    assert elementNames[..|elementNames|] == elementNames;
  }

  // ---------------------------------------------------------------------------
  // Worked examples.

  lemma SplitThree(a: string, b: string, c: string)
    requires ',' !in a && ',' !in b && ',' !in c
    ensures Split(a + [','] + b + [','] + c, ',') == [a, b, c]
  {
    SplitWhole(b, ',');
    SplitWhole(c, ',');
    SplitConcat(b, c, ',');
    assert a + [','] + b + [','] + c == a + [','] + (b + [','] + c);
    SplitConcat(a, b + [','] + c, ',');
    SplitWhole(a, ',');
  }

  lemma KeepExample(x: string)
    requires Parse(x).None?
    ensures KeepTokens(["button", "button", x]) == [Button, Button]
  {
    KeepTokensSnoc([], "button");
    KeepTokensSnoc(["button"], "button");
    KeepTokensSnoc(["button", "button"], x);
    assert Token(x) == [];
    assert ["button", "button"] + [x] == ["button", "button", x];
  }

  /** Completing an order walks the canonical order, appending each element not yet listed. */
  lemma MissingStep(p: seq<Element>, j: nat)
    requires j < 4
    ensures MissingFrom(p, Canonical[..j + 1]) ==
            MissingFrom(p, Canonical[..j]) + (if Canonical[j] in p then [] else [Canonical[j]])
    ensures Canonical[j] !in MissingFrom(p, Canonical[..j])
  {
    assert Canonical[..j + 1][..j] == Canonical[..j];
    assert Canonical[j] !in Canonical[..j];
    MissingFromMembers(p, Canonical[..j]);
  }

  /** With only the button listed, the other three follow it in canonical order. */
  lemma MissingButton()
    ensures MissingFrom([Button], Canonical) == [Icon, Title, Desc]
  {
    var p := [Button];
    assert MissingFrom(p, Canonical[..0]) == [];
    MissingStep(p, 0);
    MissingStep(p, 1);
    MissingStep(p, 2);
    MissingStep(p, 3);
    assert Canonical[..4] == Canonical;
  }

  /**
   * Repeats and unknown fragments are dropped, then the missing tokens follow
   * in canonical order: "button,button,xyz" resolves to button, icon, title, desc.
   */
  lemma DuplicatesAndUnknownsExample(x: string)
    requires ',' !in x && Parse(x).None?
    ensures CoreOrder("button" + "," + "button" + "," + x) == [Button, Icon, Title, Desc]
  {
    var s := "button" + "," + "button" + "," + x;
    ExampleTokens(x);
    DedupTwice(Button);
    assert CoreOrder(s) == Completed([Button]);
    CompletedButton();
  }

  lemma CompletedButton()
    ensures Completed([Button]) == [Button, Icon, Title, Desc]
  {
    MissingButton();
    assert [Button] + [Icon, Title, Desc] == [Button, Icon, Title, Desc];
  }

  lemma ExampleTokens(x: string)
    requires ',' !in x && Parse(x).None?
    ensures KeepTokens(Split("button" + "," + "button" + "," + x, ',')) == [Button, Button]
  {
    var s := "button" + "," + "button" + "," + x;
    assert Split(s, ',') == ["button", "button", x] by {
      assert s == "button" + [','] + "button" + [','] + x;
      SplitThree("button", "button", x);
    }
    KeepExample(x);
  }

  lemma DedupTwice<T(!new)>(a: T)
    ensures Dedup([a, a]) == [a]
  {
    DedupSnoc([], a);
    DedupSnoc([a], a);
  }

  /** Element names are lower-case words. */
  lemma NameIsLowerCase(e: Element)
    ensures |Name(e)| > 0 && forall c :: c in Name(e) ==> 'a' <= c <= 'z'
  {
    match e
    case Icon =>
    case Title =>
    case Desc =>
    case Button =>
  }

  lemma LeadingSpaceNotToken(x: string)
    ensures Parse([' '] + x).None?
  {
    var f := [' '] + x;
    forall e: Element ensures Name(e) != f {
      NameIsLowerCase(e);
      assert Name(e)[0] in Name(e);
    }
  }

  lemma SplitPair(x: string, y: string)
    requires ',' !in x && ',' !in y
    ensures Split(x + [','] + y, ',') == [x, y]
  {
    SplitWhole(x, ',');
    SplitWhole(y, ',');
    SplitConcat(x, y, ',');
  }

  lemma KeepFirstOfPair(x: string, y: string)
    requires Parse(x).Some? && Parse(y).None?
    ensures KeepTokens([x, y]) == [Parse(x).value]
  {
    KeepTokensSnoc([], x);
    KeepTokensSnoc([x], y);
  }

  /**
   * Fragments are not trimmed one by one: in the comma-and-space form
   * "a, b" (the form the setting's help text shows) only the first fragment
   * is a token, so the second element keeps its default place instead of
   * following the first.
   */
  lemma SpacedPairIgnoresSecond(a: Element, b: Element)
    ensures CoreOrder(Name(a) + ", " + Name(b)) == Completed([a])
  {
    var second := [' '] + Name(b);
    assert Name(a) + ", " + Name(b) == Name(a) + [','] + second;
    NameHasNoComma(a);
    NameIsLowerCase(b);
    SplitPair(Name(a), second);
    LeadingSpaceNotToken(Name(b));
    KeepFirstOfPair(Name(a), second);
    DedupSnoc([], a);
  }

  lemma {:induction false} SplitJoin(xs: seq<string>)
    requires |xs| >= 1
    requires forall x :: x in xs ==> ',' !in x
    ensures Split(Join(xs, ","), ',') == xs
  {
    if |xs| == 1 {
      SplitWhole(xs[0], ',');
    } else {
      SplitJoin(xs[1..]);
      assert Join(xs, ",") == xs[0] + [','] + Join(xs[1..], ",");
      SplitConcat(xs[0], Join(xs[1..], ","), ',');
      SplitWhole(xs[0], ',');
    }
  }

  /** The names of an order, in order. */
  function Names(o: seq<Element>): (r: seq<string>)
    ensures |r| == |o| && forall i :: 0 <= i < |o| ==> r[i] == Name(o[i])
  {
    seq(|o|, i requires 0 <= i < |o| => Name(o[i]))
  }

  lemma {:induction false} KeepTokensOfNames(o: seq<Element>)
    ensures KeepTokens(Names(o)) == o
  {
    if o != [] {
      KeepTokensOfNames(o[..|o| - 1]);
      assert Names(o)[..|o| - 1] == Names(o[..|o| - 1]);
    }
  }

  lemma {:induction false} DedupOfDistinct<T(!new)>(xs: seq<T>)
    requires Distinct(xs)
    ensures Dedup(xs) == xs
  {
    if xs != [] {
      DedupOfDistinct(xs[..|xs| - 1]);
    }
  }

  lemma {:induction false} MissingFromAllPresent(p: seq<Element>, cs: seq<Element>)
    requires forall e :: e in cs ==> e in p
    ensures MissingFrom(p, cs) == []
  {
    if cs != [] {
      MissingFromAllPresent(p, cs[..|cs| - 1]);
    }
  }

  /** No element name contains the separator. */
  lemma NameHasNoComma(e: Element)
    ensures ',' !in Name(e)
  {
    NameIsLowerCase(e);
  }

  lemma NamesHaveNoComma(o: seq<Element>)
    ensures forall x :: x in Names(o) ==> ',' !in x
  {
    forall x | x in Names(o) ensures ',' !in x {
      var i :| 0 <= i < |o| && Names(o)[i] == x;
      NameHasNoComma(o[i]);
    }
  }

  /**
   * Round trip: writing any order out as a comma-separated list (the form of
   * the setting's default "icon,title,desc,button") and resolving it gives the
   * same order back.
   */
  lemma FormatThenResolve(o: seq<Element>)
    requires IsPermutation(o)
    ensures CoreOrder(Join(Names(o), ",")) == o
  {
    PermutationDistinct(o);
    NamesHaveNoComma(o);
    var s := Join(Names(o), ",");
    SplitJoin(Names(o));
    assert KeepTokens(Split(s, ',')) == o by {
      KeepTokensOfNames(o);
    }
    assert Dedup(o) == o by {
      DedupOfDistinct(o);
    }
    assert MissingFrom(o, Canonical) == [] by {
      MissingFromAllPresent(o, Canonical);
    }
    assert CoreOrder(s) == o + [];
  }
}
