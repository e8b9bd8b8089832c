/**
 * The widget settings and the repeater items as the renderers see them: maps
 * from keys to values, where a missing key and a stored `null` behave the same
 * (PHP `isset` is false for both, JavaScript treats `undefined` and `null` as
 * falsy and Underscore prints both as ''), so a lookup yields an optional
 * value. The one place they differ is JavaScript string concatenation, which
 * prints `null` and `undefined`; `JsConcat` takes the missing key's side.
 *
 * Each copy has its own notion of an "empty" value and of the text a value
 * prints as; both are defined here side by side.
 */
module Values {
  import opened Strings

  datatype Option<+T> = None | Some(value: T)

  /** A configuration value: text, an integer, an associative array / object, or a list. */
  datatype Value =
    | Str(s: string)
    | Num(n: int)
    | Obj(fields: map<string, Value>)
    | List(elems: seq<Value>)

  /** A settings array, or one repeater item. */
  type Bag = map<string, Value>

  /** `$bag[$key]` / `bag[key]`. */
  function Get(b: Bag, key: string): (r: Option<Value>)
    ensures r.Some? <==> key in b
    ensures r.Some? ==> r.value == b[key]
  {
    if key in b then Some(b[key]) else None
  }

  /**
   * `$v['url']` inside `isset`/`empty`, and `v['url']` in JavaScript: only an
   * associative array / object has named members. (PHP's `isset` and `empty`
   * are false resp. true for a non-numeric offset into a string; JavaScript
   * yields `undefined`.)
   */
  function Member(v: Option<Value>, key: string): (r: Option<Value>)
    ensures r.Some? ==> v.Some? && v.value.Obj? && key in v.value.fields
  {
    if v.Some? && v.value.Obj? then Get(v.value.fields, key) else None
  }

  /** A value is exactly the given text (PHP `===` / JavaScript `===` against a string literal). */
  predicate IsText(v: Option<Value>, t: string) {
    v == Some(Str(t))
  }

  /** PHP `empty($v)` (for a missing key, `isset` is false and `empty` is true). */
  predicate PhpEmpty(v: Option<Value>) {
    match v
    case None => true
    case Some(Str(s)) => s == "" || s == "0"
    case Some(Num(n)) => n == 0
    case Some(Obj(m)) => |m| == 0
    case Some(List(xs)) => |xs| == 0
  }

  /** PHP `isset($v) && ! empty($v)`, which is PHP truthiness. */
  predicate PhpFilled(v: Option<Value>) {
    !PhpEmpty(v)
  }

  /** JavaScript truthiness: `''`, `0`, `undefined` and `null` are falsy; objects and arrays are truthy. */
  predicate JsTruthy(v: Option<Value>) {
    match v
    case None => false
    case Some(Str(s)) => s != ""
    case Some(Num(n)) => n != 0
    case Some(Obj(_)) => true
    case Some(List(_)) => true
  }

  /** The two notions of emptiness differ exactly on "0", the empty array and the empty object. */
  lemma TruthinessDiffers(v: Option<Value>)
    ensures PhpFilled(v) != JsTruthy(v) <==>
              v == Some(Str("0")) || v == Some(Obj(map[])) || v == Some(List([]))
  {
    match v
    case None =>
    case Some(Str(s)) =>
    case Some(Num(n)) =>
    case Some(Obj(m)) =>
      if |m| == 0 { assert m == map[]; }
    case Some(List(xs)) =>
  }

  /** The text PHP gives a value when it is echoed or escaped (`null` prints as '', an array as "Array"). */
  function PhpText(v: Option<Value>): string {
    match v
    case None => ""
    case Some(Str(s)) => s
    case Some(Num(n)) => IntText(n)
    case Some(Obj(_)) => "Array"
    case Some(List(_)) => "Array"
  }

  /** The text JavaScript's `String(v)` gives a value that is present. */
  function JsString(v: Value): string
    decreases v
  {
    match v
    case Str(s) => s
    case Num(n) => IntText(n)
    case Obj(_) => "[object Object]"
    case List(xs) => Join(seq(|xs|, i requires 0 <= i < |xs| => JsString(xs[i])), ",")
  }

  /** What an Underscore template interpolation (`{{{ v }}}` or `{{ v }}`) prints: '' for a missing value. */
  function JsText(v: Option<Value>): string {
    if v.Some? then JsString(v.value) else ""
  }

  /** What JavaScript's `'...' + v` appends: "undefined" for a missing value. */
  function JsConcat(v: Option<Value>): string {
    if v.Some? then JsString(v.value) else "undefined"
  }

  /** On text and integers the two copies print the same. */
  lemma SameText(v: Option<Value>)
    requires v.None? || v.value.Str? || v.value.Num?
    ensures PhpText(v) == JsText(v)
  {
  }

  /** A list element used as a settings array. */
  function AsBag(v: Value): Bag {
    if v.Obj? then v.fields else map[]
  }

  /** The repeater's items: the elements of `ufae_lists` when it is a list, none otherwise. */
  function ListItems(settings: Bag): seq<Value> {
    match Get(settings, "ufae_lists")
    case Some(List(xs)) => xs
    case _ => []
  }
}
