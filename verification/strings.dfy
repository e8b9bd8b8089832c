/**
 * String helpers shared by both renderers: PHP's `trim`, the comma split that
 * PHP's `explode` and JavaScript's `split` both perform, WordPress-style HTML
 * entity escaping, the word list of a `class` attribute and the decimal text
 * of an integer.
 */
module Strings {

  /** The characters PHP's `trim()` strips by default: " \t\n\r\0\x0B". */
  predicate IsTrimSpace(c: char) {
    c == ' ' || c == '\t' || c == '\n' || c == '\r' || c == '\0' || c == '\U{000B}'
  }

  /** Leading trim-space removed. */
  function LTrim(s: string): (r: string)
    ensures |r| <= |s|
    ensures r == [] || !IsTrimSpace(r[0])
    ensures (s == [] || !IsTrimSpace(s[0])) ==> r == s
  {
    if s != [] && IsTrimSpace(s[0]) then LTrim(s[1..]) else s
  }

  /** Trailing trim-space removed. */
  function RTrim(s: string): (r: string)
    ensures |r| <= |s|
    ensures r == [] || (r[0] == s[0] && !IsTrimSpace(r[|r| - 1]))
    ensures (s == [] || !IsTrimSpace(s[|s| - 1])) ==> r == s
  {
    if s != [] && IsTrimSpace(s[|s| - 1]) then RTrim(s[..|s| - 1]) else s
  }

  /** PHP `trim($s)`. */
  function Trim(s: string): (r: string)
    ensures r == [] || (!IsTrimSpace(r[0]) && !IsTrimSpace(r[|r| - 1]))
  {
    RTrim(LTrim(s))
  }

  /** `LTrim` keeps a suffix of its input and cuts a prefix made of trim-space only. */
  lemma {:induction false} LTrimCutsBlanks(s: string)
    ensures LTrim(s) == s[|s| - |LTrim(s)|..]
    ensures forall k :: 0 <= k < |s| - |LTrim(s)| ==> IsTrimSpace(s[k])
  {
    if s != [] && IsTrimSpace(s[0]) {
      LTrimCutsBlanks(s[1..]);
    }
  }

  /** `RTrim` keeps a prefix of its input and cuts a suffix made of trim-space only. */
  lemma {:induction false} RTrimCutsBlanks(s: string)
    ensures RTrim(s) == s[..|RTrim(s)|]
    ensures forall k :: |RTrim(s)| <= k < |s| ==> IsTrimSpace(s[k])
  {
    if s != [] && IsTrimSpace(s[|s| - 1]) {
      RTrimCutsBlanks(s[..|s| - 1]);
    }
  }

  /**
   * `Trim(s)` is the middle of `s`: what is left once a run of leading and a
   * run of trailing trim-space are cut, and only those.
   */
  lemma TrimIsMiddle(s: string)
    ensures var i := |s| - |LTrim(s)|;
      var r := Trim(s);
      i + |r| <= |s| && r == s[i..i + |r|] &&
      (forall k :: 0 <= k < i ==> IsTrimSpace(s[k])) &&
      (forall k :: i + |r| <= k < |s| ==> IsTrimSpace(s[k]))
  {
    var l := LTrim(s);
    var i := |s| - |l|;
    LTrimCutsBlanks(s);
    RTrimCutsBlanks(l);
    forall k | i + |Trim(s)| <= k < |s|
      ensures IsTrimSpace(s[k])
    {
      assert s[k] == l[k - i];
    }
  }

  /** A string that neither starts nor ends with trim-space is its own trim. */
  lemma TrimOfTrimmed(s: string)
    requires s == [] || (!IsTrimSpace(s[0]) && !IsTrimSpace(s[|s| - 1]))
    ensures Trim(s) == s
  {
  }

  /**
   * `explode($sep, $s)` in PHP and `s.split(sep)` in JavaScript: the maximal
   * separator-free pieces of `s`, in order, empty pieces included. There is
   * always at least one piece.
   */
  function Split(s: string, sep: char): (r: seq<string>)
    ensures |r| >= 1
  {
    if s == [] then [[]]
    else
      var rest := Split(s[1..], sep);
      if s[0] == sep then [[]] + rest
      else [[s[0]] + rest[0]] + rest[1..]
  }

  /** A character other than the separator glues onto the first piece. */
  lemma SplitCons(c: char, t: string, sep: char)
    requires c != sep
    ensures Split([c] + t, sep) == [[c] + Split(t, sep)[0]] + Split(t, sep)[1..]
  {
    assert ([c] + t)[0] == c && ([c] + t)[1..] == t;
  }

  /** A separator-free prefix glues onto the first piece. */
  lemma {:induction false} SplitGlue(w: string, s: string, sep: char)
    requires sep !in w
    ensures Split(w + s, sep) == [w + Split(s, sep)[0]] + Split(s, sep)[1..]
  {
    var S := Split(s, sep);
    if w != [] {
      SplitGlue(w[1..], s, sep);
      var R := Split(w[1..] + s, sep);
      assert R[0] == w[1..] + S[0] && R[1..] == S[1..];
      assert w + s == [w[0]] + (w[1..] + s);
      SplitCons(w[0], w[1..] + s, sep);
      assert [w[0]] + (w[1..] + S[0]) == w + S[0];
    } else {
      assert w + s == s && w + S[0] == S[0];
      assert [S[0]] + S[1..] == S;
    }
  }

  /** Splitting a separator-free string gives it back whole. */
  lemma SplitWhole(w: string, sep: char)
    requires sep !in w
    ensures Split(w, sep) == [w]
  {
    SplitGlue(w, [], sep);
    assert w + [] == w;
  }

  /** Splitting is a homomorphism from "join with the separator" to concatenation. */
  lemma {:induction false} SplitConcat(a: string, b: string, sep: char)
    ensures Split(a + [sep] + b, sep) == Split(a, sep) + Split(b, sep)
  {
    if a == [] {
      assert a + [sep] + b == [sep] + b;
      assert ([sep] + b)[1..] == b;
    } else {
      assert (a + [sep] + b)[1..] == a[1..] + [sep] + b;
      SplitConcat(a[1..], b, sep);
    }
  }

  /**
   * Where piece k of `Split(s, sep)` sits in `s`: it starts at the beginning
   * of `s` (k == 0) or right after a separator, and it ends at the end of `s`
   * or right before a separator.
   */
  lemma {:induction false} SplitPosition(s: string, sep: char, k: nat) returns (p: nat)
    requires k < |Split(s, sep)|
    ensures p + |Split(s, sep)[k]| <= |s|
    ensures s[p..p + |Split(s, sep)[k]|] == Split(s, sep)[k]
    ensures k == 0 ==> p == 0
    ensures k > 0 ==> p > 0 && s[p - 1] == sep
    ensures p + |Split(s, sep)[k]| == |s| || s[p + |Split(s, sep)[k]|] == sep
  {
    if s == [] {
      p := 0;
    } else {
      var rest := Split(s[1..], sep);
      var t := Split(s, sep)[k];
      if k == 0 {
        p := 0;
        if s[0] != sep {
          assert t == [s[0]] + rest[0];
          var q := SplitPosition(s[1..], sep, 0);
          assert s[..1 + |rest[0]|] == [s[0]] + s[1..][..|rest[0]|];
        }
      } else {
        var k' := if s[0] == sep then k - 1 else k;
        assert t == rest[k'];
        var q := SplitPosition(s[1..], sep, k');
        p := q + 1;
        SliceOfTail(s, q, |t|);
      }
    }
  }

  lemma SliceOfTail(s: string, q: nat, n: nat)
    requires 0 < |s| && q + n < |s|
    ensures s[1..][q..q + n] == s[q + 1..q + 1 + n]
    ensures q + n < |s[1..]| ==> s[1..][q + n] == s[q + 1 + n]
  {
  }

  /** The entity for one character, as WordPress's `esc_html`/`esc_attr` produce it. */
  function EscChar(c: char): string {
    if c == '&' then "&amp;"
    else if c == '<' then "&lt;"
    else if c == '>' then "&gt;"
    else if c == '"' then "&quot;"
    else if c == '\'' then "&#039;"
    else [c]
  }

  /** `esc_html($s)`: every markup-significant character replaced by its entity. */
  function EscHtml(s: string): string {
    if s == [] then [] else EscChar(s[0]) + EscHtml(s[1..])
  }

  /** Escaped text holds no character that could open a tag or end an attribute value. */
  lemma {:induction false} EscHtmlSafe(s: string)
    ensures var r := EscHtml(s); '<' !in r && '>' !in r && '"' !in r && '\'' !in r
  {
    if s != [] {
      EscHtmlSafe(s[1..]);
      var c := s[0];
      assert '<' !in EscChar(c) && '>' !in EscChar(c) && '"' !in EscChar(c) && '\'' !in EscChar(c) by {
        if c == '&' {
          assert EscChar(c) == "&amp;";
        } else if c == '<' {
          assert EscChar(c) == "&lt;";
        } else if c == '>' {
          assert EscChar(c) == "&gt;";
        } else if c == '"' {
          assert EscChar(c) == "&quot;";
        } else if c == '\'' {
          assert EscChar(c) == "&#039;";
        }
      }
    }
  }

  lemma {:induction false} EscHtmlConcat(a: string, b: string)
    ensures EscHtml(a + b) == EscHtml(a) + EscHtml(b)
  {
    if a != [] {
      assert (a + b)[0] == a[0] && (a + b)[1..] == a[1..] + b;
      EscHtmlConcat(a[1..], b);
      calc {
        EscHtml(a + b);
        EscChar(a[0]) + EscHtml(a[1..] + b);
        EscChar(a[0]) + (EscHtml(a[1..]) + EscHtml(b));
        (EscChar(a[0]) + EscHtml(a[1..])) + EscHtml(b);
      }
    } else {
      assert a + b == b;
    }
  }

  /** Leading trim-space of a string followed by a non-blank part. */
  lemma {:induction false} LTrimConcat(a: string, b: string)
    requires b != [] && !IsTrimSpace(b[0])
    ensures LTrim(a + b) == LTrim(a) + b
  {
    if a == [] {
      assert a + b == b;
    } else if IsTrimSpace(a[0]) {
      assert (a + b)[0] == a[0] && (a + b)[1..] == a[1..] + b;
      LTrimConcat(a[1..], b);
    } else {
      assert (a + b)[0] == a[0];
    }
  }

  /** Escaping keeps leading blanks as they are, so trimming before or after escaping agrees. */
  lemma {:induction false} LTrimEscHtml(s: string)
    ensures LTrim(EscHtml(s)) == EscHtml(LTrim(s))
  {
    if s != [] {
      var e := EscHtml(s);
      assert e == EscChar(s[0]) + EscHtml(s[1..]);
      if IsTrimSpace(s[0]) {
        assert EscChar(s[0]) == [s[0]];
        assert e[0] == s[0] && e[1..] == EscHtml(s[1..]);
        LTrimEscHtml(s[1..]);
      } else {
        assert e[0] == EscChar(s[0])[0];
      }
    }
  }

  /** Trimming an escaped prefix followed by a part that neither starts nor ends blank trims the prefix's start only. */
  lemma TrimEscapedPrefix(p: string, rest: string)
    requires rest != [] && !IsTrimSpace(rest[0]) && !IsTrimSpace(rest[|rest| - 1])
    ensures Trim(EscHtml(p) + rest) == EscHtml(LTrim(p)) + rest
  {
    LTrimConcat(EscHtml(p), rest);
    LTrimEscHtml(p);
    var t := EscHtml(LTrim(p)) + rest;
    assert t[|t| - 1] == rest[|rest| - 1];
  }

  /** Escaping that introduced no '&' changed nothing: escaping only ever adds entities. */
  lemma {:induction false} EscHtmlUnchangedWithoutAmp(s: string)
    requires '&' !in EscHtml(s)
    ensures EscHtml(s) == s
  {
    if s != [] {
      assert EscHtml(s) == EscChar(s[0]) + EscHtml(s[1..]);
      assert '&' !in EscHtml(s[1..]);
      EscHtmlUnchangedWithoutAmp(s[1..]);
    }
  }

  /** A string with no markup-significant character is its own escape. */
  lemma {:induction false} EscHtmlOfPlain(s: string)
    requires '&' !in s && '<' !in s && '>' !in s && '"' !in s && '\'' !in s
    ensures EscHtml(s) == s
  {
    if s != [] {
      EscHtmlOfPlain(s[1..]);
    }
  }

  /** `EscHtml` applied to every piece. */
  function EscAll(xs: seq<string>): (r: seq<string>)
    ensures |r| == |xs|
  {
    if xs == [] then [] else [EscHtml(xs[0])] + EscAll(xs[1..])
  }

  /** Escaping commutes with splitting on ',': escaping neither creates nor removes a comma. */
  lemma {:induction false} SplitEscHtml(s: string)
    ensures Split(EscHtml(s), ',') == EscAll(Split(s, ','))
  {
    if s != [] {
      SplitEscHtml(s[1..]);
      if s[0] == ',' {
        SplitEscComma(s);
      } else {
        SplitEscOther(s);
      }
    }
  }

  /** The step of `SplitEscHtml` for a leading comma. */
  lemma SplitEscComma(s: string)
    requires s != [] && s[0] == ','
    requires Split(EscHtml(s[1..]), ',') == EscAll(Split(s[1..], ','))
    ensures Split(EscHtml(s), ',') == EscAll(Split(s, ','))
  {
    var rest := Split(s[1..], ',');
    assert EscChar(',') == [','];
    assert EscHtml(s) == [','] + EscHtml(s[1..]);
    SplitLeadingSep(EscHtml(s[1..]), ',');
    assert s == [','] + s[1..];
    SplitLeadingSep(s[1..], ',');
    assert EscAll([[]] + rest) == [EscHtml([])] + EscAll(rest);
  }

  lemma SplitLeadingSep(x: string, sep: char)
    ensures Split([sep] + x, sep) == [[]] + Split(x, sep)
  {
    assert ([sep] + x)[1..] == x;
  }

  /** The step of `SplitEscHtml` for a leading character other than a comma. */
  lemma SplitEscOther(s: string)
    requires s != [] && s[0] != ','
    requires Split(EscHtml(s[1..]), ',') == EscAll(Split(s[1..], ','))
    ensures Split(EscHtml(s), ',') == EscAll(Split(s, ','))
  {
    var rest := Split(s[1..], ',');
    var erest := Split(EscHtml(s[1..]), ',');
    var w := EscChar(s[0]);
    assert EscHtml(s) == w + EscHtml(s[1..]);
    EscCharNoComma(s[0]);
    SplitGlue(w, EscHtml(s[1..]), ',');
    EscHtmlConcat([s[0]], rest[0]);
    assert [s[0]][1..] == [];
    assert EscHtml([s[0]]) == w;
    assert Split(s, ',') == [[s[0]] + rest[0]] + rest[1..];
    EscAllTail(rest);
    assert EscAll([[s[0]] + rest[0]] + rest[1..]) == [EscHtml([s[0]] + rest[0])] + EscAll(rest[1..]);
  }

  /** Escaping a character other than a comma yields no comma. */
  lemma EscCharNoComma(c: char)
    requires c != ','
    ensures ',' !in EscChar(c)
  {
    if c == '&' {
      assert EscChar(c) == "&amp;";
    } else if c == '<' {
      assert EscChar(c) == "&lt;";
    } else if c == '>' {
      assert EscChar(c) == "&gt;";
    } else if c == '"' {
      assert EscChar(c) == "&quot;";
    } else if c == '\'' {
      assert EscChar(c) == "&#039;";
    }
  }

  lemma EscAllTail(xs: seq<string>)
    requires xs != []
    ensures EscAll(xs)[0] == EscHtml(xs[0]) && EscAll(xs)[1..] == EscAll(xs[1..])
  {
  }

  /** The pieces of `s` that are not empty. */
  function NonEmpty(xs: seq<string>): (r: seq<string>)
    ensures forall w :: w in r <==> w in xs && w != []
  {
    if xs == [] then []
    else (if xs[0] == [] then [] else [xs[0]]) + NonEmpty(xs[1..])
  }

  lemma {:induction false} NonEmptyConcat(xs: seq<string>, ys: seq<string>)
    ensures NonEmpty(xs + ys) == NonEmpty(xs) + NonEmpty(ys)
  {
    if xs != [] {
      assert (xs + ys)[0] == xs[0] && (xs + ys)[1..] == xs[1..] + ys;
      NonEmptyConcat(xs[1..], ys);
      var h := if xs[0] == [] then [] else [xs[0]];
      calc {
        NonEmpty(xs + ys);
        h + NonEmpty(xs[1..] + ys);
        h + (NonEmpty(xs[1..]) + NonEmpty(ys));
        (h + NonEmpty(xs[1..])) + NonEmpty(ys);
      }
    } else {
      assert xs + ys == ys;
    }
  }

  /** The class names a `class="..."` attribute value denotes: its space-separated words. */
  function Words(s: string): seq<string> {
    NonEmpty(Split(s, ' '))
  }

  /** Joining two values with a space joins their word lists, however many spaces each side carries. */
  lemma WordsSpace(a: string, b: string)
    ensures Words(a + " " + b) == Words(a) + Words(b)
  {
    assert a + " " + b == a + [' '] + b;
    SplitConcat(a, b, ' ');
    NonEmptyConcat(Split(a, ' '), Split(b, ' '));
  }

  lemma WordsEmpty()
    ensures Words("") == []
  {
  }

  function DigitChar(d: nat): (c: char)
    requires d < 10
    ensures '0' <= c <= '9'
  {
    ['0', '1', '2', '3', '4', '5', '6', '7', '8', '9'][d]
  }

  function Digits(n: nat): (r: string)
    ensures r != [] && forall c :: c in r ==> '0' <= c <= '9'
  {
    if n < 10 then [DigitChar(n)] else Digits(n / 10) + [DigitChar(n % 10)]
  }

  /** The decimal text PHP and JavaScript both give an integer. */
  function IntText(n: int): (r: string)
    ensures r != [] && forall c :: c in r ==> c == '-' || '0' <= c <= '9'
  {
    if n < 0 then "-" + Digits(-n) else Digits(n)
  }

  /** Joins pieces with a separator (`Array.prototype.join`). */
  function Join(xs: seq<string>, sep: string): string {
    if xs == [] then [] else if |xs| == 1 then xs[0] else xs[0] + sep + Join(xs[1..], sep)
  }
}
