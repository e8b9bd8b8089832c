/**
 * The markup both renderers write, as a sequence of structured fragments.
 *
 * A fragment is an opening tag with its attributes, a closing tag, a void tag,
 * a text run, or the output of the icon renderer. Attribute values and text
 * are made of literal pieces and interpolated values; an interpolated value
 * records which escaper the renderer passed it through (`esc_html`,
 * `esc_attr`, `esc_url`, Underscore's `{{ }}`) or that it was interpolated
 * raw (`{{{ }}}`). The escapers themselves stay uninterpreted here.
 */
module Markup {
  import opened Values

  /** The escaper an interpolated value goes through. */
  datatype Escape =
    | EscapeHtml       // esc_html
    | EscapeAttr          // esc_attr
    | EscapeUrl           // esc_url
    | EscapeTemplate // Underscore template `{{ value }}`
    | Raw              // Underscore template `{{{ value }}}`, or a value handed to `addRenderAttribute` as is

  /** Literal markup, or an interpolated value with its escaper. */
  datatype Piece = Lit(text: string) | Val(esc: Escape, text: string)

  type Markup = seq<Piece>

  /** `name="value"`, or text printed verbatim inside the tag (the button's custom attribute). */
  datatype Attr = Attr(name: string, value: Markup) | Verbatim(text: Markup)

  /** One key of a render-attribute bag with its values, joined by spaces when printed. */
  datatype Entry = Entry(key: string, values: seq<Markup>)

  datatype Frag =
    | Open(tag: Piece, attrs: seq<Attr>)
    | OpenBag(bag: seq<Entry>)          // `<div ` + render attribute string + `>`
    | Close(tag: Piece)
    | Void(name: string, attrs: seq<Attr>)
    | Text(text: Piece)
    | Glyph(icon: Option<Value>)        // whatever the icon renderer prints for this icon setting

  /** `<div class="cls">` with a literal class. */
  function Div(cls: string): Frag {
    Open(Lit("div"), [Attr("class", [Lit(cls)])])
  }

  const EndDiv: Frag := Close(Lit("div"))

  /** The output buffer: what has been echoed (or emitted by the template) so far. */
  class Page {
    var out: seq<Frag>

    constructor()
      ensures out == []
    {
      out := [];
    }

    /** `echo`: appends to the output. */
    method Echo(fs: seq<Frag>)
      modifies this
      ensures out == old(out) + fs
    {
      out := out + fs;
    }
  }

  /** Output appended in two steps is the output of both, appended at once. */
  lemma Appended(a: seq<Frag>, b: seq<Frag>, c: seq<Frag>)
    ensures (a + b) + c == a + (b + c)
  {
  }

  // ---------------------------------------------------------------------------
  // Render-attribute bags (Elementor's `add_render_attribute` and the editor
  // view's `addRenderAttribute`): an insertion-ordered list of keys, each with
  // the values added to it so far.

  predicate UniqueKeys(bag: seq<Entry>) {
    forall i, j :: 0 <= i < j < |bag| ==> bag[i].key != bag[j].key
  }

  /** The values held under `key` (none when the key was never added). */
  function Lookup(bag: seq<Entry>, key: string): seq<Markup> {
    if bag == [] then []
    else if bag[0].key == key then bag[0].values
    else Lookup(bag[1..], key)
  }

  function Keys(bag: seq<Entry>): (r: seq<string>)
    ensures |r| == |bag| && forall i :: 0 <= i < |bag| ==> r[i] == bag[i].key
  {
    seq(|bag|, i requires 0 <= i < |bag| => bag[i].key)
  }

  /** Adding values to a key appends them after the ones already there; a new key goes last. */
  function AddEntry(bag: seq<Entry>, e: Entry): (r: seq<Entry>)
    ensures |r| == |bag| || |r| == |bag| + 1
  {
    if bag == [] then [e]
    else if bag[0].key == e.key then [Entry(e.key, bag[0].values + e.values)] + bag[1..]
    else [bag[0]] + AddEntry(bag[1..], e)
  }

  function AddEntries(bag: seq<Entry>, es: seq<Entry>): seq<Entry> {
    if es == [] then bag
    else AddEntry(AddEntries(bag, es[..|es| - 1]), es[|es| - 1])
  }

  lemma {:induction false} AddEntryLookup(bag: seq<Entry>, e: Entry, key: string)
    ensures Lookup(AddEntry(bag, e), key) ==
              if key == e.key then Lookup(bag, key) + e.values else Lookup(bag, key)
  {
    if bag != [] && bag[0].key != e.key {
      AddEntryLookup(bag[1..], e, key);
    }
  }

  /** Adding to a key keeps the key list; adding a new key appends it. */
  lemma {:induction false} AddEntryKeyList(bag: seq<Entry>, e: Entry)
    ensures Keys(AddEntry(bag, e)) == if e.key in Keys(bag) then Keys(bag) else Keys(bag) + [e.key]
  {
    if bag != [] && bag[0].key != e.key {
      var r := AddEntry(bag, e);
      AddEntryKeyList(bag[1..], e);
      assert r[0] == bag[0] && r[1..] == AddEntry(bag[1..], e);
      KeysCons(r);
      KeysCons(bag);
      assert e.key in Keys(bag) <==> e.key in Keys(bag[1..]);
    } else if bag != [] {
      assert Keys(AddEntry(bag, e)) == Keys(bag);
    }
  }

  lemma KeysCons(bag: seq<Entry>)
    requires bag != []
    ensures Keys(bag) == [bag[0].key] + Keys(bag[1..])
  {
  }

  lemma AddEntryKeys(bag: seq<Entry>, e: Entry)
    requires UniqueKeys(bag)
    ensures UniqueKeys(AddEntry(bag, e))
    ensures Keys(AddEntry(bag, e)) == if e.key in Keys(bag) then Keys(bag) else Keys(bag) + [e.key]
  {
    AddEntryKeyList(bag, e);
    var r := AddEntry(bag, e);
    forall i, j | 0 <= i < j < |r| ensures r[i].key != r[j].key {
      assert r[i].key == Keys(r)[i] && r[j].key == Keys(r)[j];
      if j == |bag| {
        assert Keys(r)[i] == Keys(bag)[i];
      }
    }
  }

  /** A key not yet in the bag goes last. */
  lemma {:induction false} AddEntryNew(bag: seq<Entry>, e: Entry)
    requires forall i :: 0 <= i < |bag| ==> bag[i].key != e.key
    ensures AddEntry(bag, e) == bag + [e]
  {
    if bag != [] {
      AddEntryNew(bag[1..], e);
      assert [bag[0]] + (bag[1..] + [e]) == bag + [e];
    }
  }

  /** Distinct keys added to an empty bag give the entries themselves. */
  lemma {:induction false} AddEntriesFresh(es: seq<Entry>)
    requires UniqueKeys(es)
    ensures AddEntries([], es) == es
  {
    if es != [] {
      var init := es[..|es| - 1];
      assert UniqueKeys(init) by {
        forall i, j | 0 <= i < j < |init| ensures init[i].key != init[j].key {
          assert init[i] == es[i] && init[j] == es[j];
        }
      }
      AddEntriesFresh(init);
      AddEntryNew(init, es[|es| - 1]);
      assert init + [es[|es| - 1]] == es;
    }
  }

  /**
   * What a bag holds after a batch of additions: under each key, the old values
   * followed by the added ones in order; keys stay unique.
   */
  lemma {:induction false} AddEntriesLookup(bag: seq<Entry>, es: seq<Entry>, key: string)
    ensures Lookup(AddEntries(bag, es), key) == Lookup(bag, key) + LookupAll(es, key)
  {
    if es != [] {
      var init := es[..|es| - 1];
      AddEntriesLookup(bag, init, key);
      AddEntryLookup(AddEntries(bag, init), es[|es| - 1], key);
    }
  }

  lemma {:induction false} AddEntriesUnique(bag: seq<Entry>, es: seq<Entry>)
    requires UniqueKeys(bag)
    ensures UniqueKeys(AddEntries(bag, es))
  {
    if es != [] {
      AddEntriesUnique(bag, es[..|es| - 1]);
      AddEntryKeys(AddEntries(bag, es[..|es| - 1]), es[|es| - 1]);
    }
  }

  /** All values a batch of additions puts under `key`, in order. */
  function LookupAll(es: seq<Entry>, key: string): seq<Markup> {
    if es == [] then []
    else LookupAll(es[..|es| - 1], key) + (if es[|es| - 1].key == key then es[|es| - 1].values else [])
  }

  /** The render-attribute bag of one element of a widget or editor view. */
  class RenderAttributes {
    var entries: seq<Entry>

    constructor()
      ensures entries == []
    {
      entries := [];
    }

    /** Adds every key of `es` in turn, appending to keys already present. */
    method Add(es: seq<Entry>)
      modifies this
      ensures entries == AddEntries(old(entries), es)
    {
      for i := 0 to |es|
        invariant entries == AddEntries(old(entries), es[..i])
      {
        assert es[..i + 1][..i] == es[..i];
        entries := AddEntry(entries, es[i]);
      }
      assert es[..|es|] == es;
    }
  }

  // ---------------------------------------------------------------------------
  // Nesting: opening and closing tags match like brackets.

  /** Runs the fragments against a stack of open tags (top last); None on a mismatched close. */
  function Run(fs: seq<Frag>, stack: seq<Piece>): Option<seq<Piece>> {
    if fs == [] then Some(stack)
    else
      match fs[0]
      case Open(t, _) => Run(fs[1..], stack + [t])
      case OpenBag(_) => Run(fs[1..], stack + [Lit("div")])
      case Close(t) =>
        if stack != [] && stack[|stack| - 1] == t then Run(fs[1..], stack[..|stack| - 1]) else None
      case _ => Run(fs[1..], stack)
  }

  /** Every tag opened is closed, in the right order, and nothing else is closed. */
  predicate Balanced(fs: seq<Frag>) {
    Run(fs, []) == Some([])
  }

  lemma {:induction false} RunConcat(a: seq<Frag>, b: seq<Frag>, stack: seq<Piece>)
    ensures Run(a + b, stack) == match Run(a, stack) case None => None case Some(s) => Run(b, s)
  {
    if a != [] {
      assert (a + b)[1..] == a[1..] + b;
      match a[0]
      case Open(t, _) => RunConcat(a[1..], b, stack + [t]);
      case OpenBag(_) => RunConcat(a[1..], b, stack + [Lit("div")]);
      case Close(t) =>
        if stack != [] && stack[|stack| - 1] == t {
          RunConcat(a[1..], b, stack[..|stack| - 1]);
        }
      case Void(_, _) => RunConcat(a[1..], b, stack);
      case Text(_) => RunConcat(a[1..], b, stack);
      case Glyph(_) => RunConcat(a[1..], b, stack);
    } else {
      assert a + b == b;
    }
  }

  /** What runs from an empty stack runs the same on top of any stack. */
  lemma {:induction false} RunOnTop(fs: seq<Frag>, s: seq<Piece>, t: seq<Piece>, base: seq<Piece>)
    requires Run(fs, s) == Some(t)
    ensures Run(fs, base + s) == Some(base + t)
  {
    if fs != [] {
      match fs[0]
      case Open(x, _) =>
        assert base + s + [x] == base + (s + [x]);
        RunOnTop(fs[1..], s + [x], t, base);
      case OpenBag(_) =>
        assert base + s + [Lit("div")] == base + (s + [Lit("div")]);
        RunOnTop(fs[1..], s + [Lit("div")], t, base);
      case Close(x) =>
        assert (base + s)[..|base + s| - 1] == base + s[..|s| - 1];
        RunOnTop(fs[1..], s[..|s| - 1], t, base);
      case Void(_, _) => RunOnTop(fs[1..], s, t, base);
      case Text(_) => RunOnTop(fs[1..], s, t, base);
      case Glyph(_) => RunOnTop(fs[1..], s, t, base);
    }
  }

  lemma BalancedConcat(a: seq<Frag>, b: seq<Frag>)
    requires Balanced(a) && Balanced(b)
    ensures Balanced(a + b)
  {
    RunConcat(a, b, []);
  }

  lemma BalancedWithin(body: seq<Frag>, t: Piece)
    requires Balanced(body)
    ensures Run(body + [Close(t)], [t]) == Some([])
  {
    RunOnTop(body, [], [], [t]);
    assert [t] + [] == [t];
    RunConcat(body, [Close(t)], [t]);
    assert [t][..0] == [];
  }

  /** An element opened, a balanced body, and the matching close make a balanced whole. */
  lemma BalancedWrap(open: Frag, body: seq<Frag>, close: Frag)
    requires open.Open? && close == Close(open.tag)
    requires Balanced(body)
    ensures Balanced([open] + body + [close])
  {
    var fs := [open] + body + [close];
    assert fs[0] == open && fs[1..] == body + [close];
    assert [] + [open.tag] == [open.tag];
    BalancedWithin(body, open.tag);
  }

  /** A div opened from a bag, a balanced body and a closing div make a balanced whole. */
  lemma BalancedWrapBag(bag: seq<Entry>, body: seq<Frag>)
    requires Balanced(body)
    ensures Balanced([OpenBag(bag)] + body + [EndDiv])
  {
    var fs := [OpenBag(bag)] + body + [EndDiv];
    assert fs[0] == OpenBag(bag) && fs[1..] == body + [EndDiv];
    assert [] + [Lit("div")] == [Lit("div")];
    BalancedWithin(body, Lit("div"));
  }

  /** A void tag, a text run or an icon opens and closes nothing. */
  lemma BalancedLeaf(f: Frag)
    requires f.Void? || f.Text? || f.Glyph?
    ensures Balanced([f])
  {
    assert [f][1..] == [];
  }

  /** The tag an opening fragment pushes. */
  function OpenTag(f: Frag): Piece
    requires f.Open? || f.OpenBag?
  {
    if f.Open? then f.tag else Lit("div")
  }

  /**
   * The opening fragments met while exactly `k` tags are open, running from
   * `stack`: at `k == 0` the top-level elements, at `k == 1` their children,
   * and so on. Stops at a mismatched close.
   */
  function Level(fs: seq<Frag>, stack: seq<Piece>, k: nat): seq<Frag> {
    if fs == [] then []
    else
      match fs[0]
      case Open(t, _) => (if |stack| == k then [fs[0]] else []) + Level(fs[1..], stack + [t], k)
      case OpenBag(_) => (if |stack| == k then [fs[0]] else []) + Level(fs[1..], stack + [Lit("div")], k)
      case Close(t) =>
        if stack != [] && stack[|stack| - 1] == t then Level(fs[1..], stack[..|stack| - 1], k) else []
      case _ => Level(fs[1..], stack, k)
  }

  lemma {:induction false} LevelConcat(a: seq<Frag>, b: seq<Frag>, stack: seq<Piece>, k: nat)
    requires Run(a, stack).Some?
    ensures Level(a + b, stack, k) == Level(a, stack, k) + Level(b, Run(a, stack).value, k)
  {
    if a == [] {
      assert a + b == b;
    } else {
      assert (a + b)[0] == a[0] && (a + b)[1..] == a[1..] + b;
      match a[0]
      case Open(t, _) => LevelConcat(a[1..], b, stack + [t], k);
      case OpenBag(_) => LevelConcat(a[1..], b, stack + [Lit("div")], k);
      case Close(t) => LevelConcat(a[1..], b, stack[..|stack| - 1], k);
      case Void(_, _) => LevelConcat(a[1..], b, stack, k);
      case Text(_) => LevelConcat(a[1..], b, stack, k);
      case Glyph(_) => LevelConcat(a[1..], b, stack, k);
    }
  }

  /** What runs from a stack runs the same with more tags open beneath it, one level deeper per tag. */
  lemma {:induction false} LevelOnTop(fs: seq<Frag>, s: seq<Piece>, t: seq<Piece>, base: seq<Piece>, k: nat)
    requires Run(fs, s) == Some(t)
    ensures Level(fs, base + s, |base| + k) == Level(fs, s, k)
  {
    if fs != [] {
      match fs[0]
      case Open(x, _) =>
        assert base + s + [x] == base + (s + [x]);
        LevelOnTop(fs[1..], s + [x], t, base, k);
      case OpenBag(_) =>
        assert base + s + [Lit("div")] == base + (s + [Lit("div")]);
        LevelOnTop(fs[1..], s + [Lit("div")], t, base, k);
      case Close(x) =>
        assert (base + s)[..|base + s| - 1] == base + s[..|s| - 1];
        LevelOnTop(fs[1..], s[..|s| - 1], t, base, k);
      case Void(_, _) => LevelOnTop(fs[1..], s, t, base, k);
      case Text(_) => LevelOnTop(fs[1..], s, t, base, k);
      case Glyph(_) => LevelOnTop(fs[1..], s, t, base, k);
    }
  }

  /** Nothing a fragment list opens on top of `base` sits at a level below `base`. */
  lemma {:induction false} LevelBelow(fs: seq<Frag>, s: seq<Piece>, t: seq<Piece>, base: seq<Piece>, k: nat)
    requires Run(fs, s) == Some(t) && k < |base|
    ensures Level(fs, base + s, k) == []
  {
    if fs != [] {
      match fs[0]
      case Open(x, _) =>
        assert base + s + [x] == base + (s + [x]);
        LevelBelow(fs[1..], s + [x], t, base, k);
      case OpenBag(_) =>
        assert base + s + [Lit("div")] == base + (s + [Lit("div")]);
        LevelBelow(fs[1..], s + [Lit("div")], t, base, k);
      case Close(x) =>
        assert (base + s)[..|base + s| - 1] == base + s[..|s| - 1];
        LevelBelow(fs[1..], s[..|s| - 1], t, base, k);
      case Void(_, _) => LevelBelow(fs[1..], s, t, base, k);
      case Text(_) => LevelBelow(fs[1..], s, t, base, k);
      case Glyph(_) => LevelBelow(fs[1..], s, t, base, k);
    }
  }

  /**
   * An element wrapping a balanced body: the element itself is the only
   * top-level opening, its body's openings sit one level deeper, and the
   * whole is balanced.
   */
  lemma Wrapped(open: Frag, body: seq<Frag>)
    requires open.Open? || open.OpenBag?
    requires Balanced(body)
    ensures Balanced([open] + body + [Close(OpenTag(open))])
    ensures Level([open] + body + [Close(OpenTag(open))], [], 0) == [open]
    ensures forall k: nat :: Level([open] + body + [Close(OpenTag(open))], [], k + 1) == Level(body, [], k)
  {
    var t := OpenTag(open);
    var fs := [open] + body + [Close(t)];
    assert fs[0] == open && fs[1..] == body + [Close(t)];
    assert [] + [t] == [t];
    BalancedWithin(body, t);
    RunOnTop(body, [], [], [t]);
    assert [t] + [] == [t];
    LevelConcat(body, [Close(t)], [t], 0);
    LevelBelow(body, [], [], [t], 0);
    assert [Close(t)][1..] == [];
    assert [t][..0] == [];
    forall k: nat ensures Level(fs, [], k + 1) == Level(body, [], k) {
      LevelConcat(body, [Close(t)], [t], k + 1);
      LevelOnTop(body, [], [], [t], k);
    }
  }

  // ---------------------------------------------------------------------------
  // Escaping: which interpolated values reach the output unescaped.

  predicate PieceEscaped(p: Piece) {
    p.Val? ==> p.esc != Raw
  }

  predicate AttrEscaped(a: Attr) {
    match a
    case Attr(_, v) => forall i :: 0 <= i < |v| ==> PieceEscaped(v[i])
    case Verbatim(v) => forall i :: 0 <= i < |v| ==> PieceEscaped(v[i])
  }

  predicate FragEscaped(f: Frag) {
    match f
    case Open(t, attrs) => PieceEscaped(t) && forall i :: 0 <= i < |attrs| ==> AttrEscaped(attrs[i])
    case OpenBag(bag) => true
    case Close(t) => PieceEscaped(t)
    case Void(_, attrs) => forall i :: 0 <= i < |attrs| ==> AttrEscaped(attrs[i])
    case Text(p) => PieceEscaped(p)
    case Glyph(_) => true
  }

  /** No interpolated value in `fs` is printed raw. */
  predicate AllEscaped(fs: seq<Frag>) {
    forall i :: 0 <= i < |fs| ==> FragEscaped(fs[i])
  }

  lemma EscapedConcat(a: seq<Frag>, b: seq<Frag>)
    requires AllEscaped(a) && AllEscaped(b)
    ensures AllEscaped(a + b)
  {
    forall i | |a| <= i < |a + b| ensures FragEscaped((a + b)[i]) {
      assert (a + b)[i] == b[i - |a|];
    }
  }

  /** The raw interpolated values of `fs`, in order. */
  function RawValues(fs: seq<Frag>): seq<string> {
    if fs == [] then [] else RawOf(fs[0]) + RawValues(fs[1..])
  }

  function RawInPieces(ps: Markup): seq<string> {
    if ps == [] then []
    else RawInPieces(ps[..|ps| - 1]) + (if ps[|ps| - 1] == Val(Raw, ps[|ps| - 1].text) then [ps[|ps| - 1].text] else [])
  }

  function RawInAttrs(attrs: seq<Attr>): seq<string> {
    if attrs == [] then []
    else
      RawInAttrs(attrs[..|attrs| - 1]) +
      (match attrs[|attrs| - 1] case Attr(_, v) => RawInPieces(v) case Verbatim(v) => RawInPieces(v))
  }

  function RawOf(f: Frag): seq<string> {
    match f
    case Open(t, attrs) => RawInPieces([t]) + RawInAttrs(attrs)
    case OpenBag(_) => []
    case Close(t) => RawInPieces([t])
    case Void(_, attrs) => RawInAttrs(attrs)
    case Text(p) => RawInPieces([p])
    case Glyph(_) => []
  }

  lemma {:induction false} RawInPiecesEmpty(ps: Markup)
    ensures RawInPieces(ps) == [] <==> forall i :: 0 <= i < |ps| ==> PieceEscaped(ps[i])
  {
    if ps != [] {
      RawInPiecesEmpty(ps[..|ps| - 1]);
      assert forall i :: 0 <= i < |ps| - 1 ==> ps[..|ps| - 1][i] == ps[i];
    }
  }

  lemma {:induction false} RawInAttrsEmpty(attrs: seq<Attr>)
    ensures RawInAttrs(attrs) == [] <==> forall i :: 0 <= i < |attrs| ==> AttrEscaped(attrs[i])
  {
    if attrs != [] {
      RawInAttrsEmpty(attrs[..|attrs| - 1]);
      assert forall i :: 0 <= i < |attrs| - 1 ==> attrs[..|attrs| - 1][i] == attrs[i];
      match attrs[|attrs| - 1]
      case Attr(_, v) => RawInPiecesEmpty(v);
      case Verbatim(v) => RawInPiecesEmpty(v);
    }
  }

  lemma RawOfEmpty(f: Frag)
    ensures RawOf(f) == [] <==> FragEscaped(f)
  {
    match f
    case Open(t, attrs) =>
      RawInPiecesEmpty([t]);
      RawInAttrsEmpty(attrs);
    case OpenBag(_) =>
    case Close(t) => RawInPiecesEmpty([t]);
    case Void(_, attrs) => RawInAttrsEmpty(attrs);
    case Text(p) => RawInPiecesEmpty([p]);
    case Glyph(_) =>
  }

  /** A fragment list has no raw value exactly when every fragment is escaped. */
  lemma {:induction false} RawValuesEmpty(fs: seq<Frag>)
    ensures RawValues(fs) == [] <==> AllEscaped(fs)
  {
    if fs != [] {
      RawValuesEmpty(fs[1..]);
      RawOfEmpty(fs[0]);
      assert forall i :: 1 <= i < |fs| ==> fs[1..][i - 1] == fs[i];
    }
  }

  lemma {:induction false} RawValuesConcat(a: seq<Frag>, b: seq<Frag>)
    ensures RawValues(a + b) == RawValues(a) + RawValues(b)
  {
    if a == [] {
      assert a + b == b;
    } else {
      assert (a + b)[0] == a[0];
      assert (a + b)[1..] == a[1..] + b;
      RawValuesConcat(a[1..], b);
    }
  }
}
