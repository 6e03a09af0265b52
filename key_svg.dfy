/**
  The text button's key face: `escapeXml` and `makeKeySvg`, which lay out
  one centred `<text>` line per label on a 128x128 dark tile, and the
  `data:` URL the face is sent as.
 */
module KeySvg {
  import opened JsString

  // ---------------------------------------------------------------------
  // escapeXml
  // ---------------------------------------------------------------------

  /** `escapeXml`: `&`, then `<`, then `>` replaced globally by their
      entities. */
  function EscapeXml(s: string): (r: string)
    ensures '<' !in r && '>' !in r
    ensures '&' !in s && '<' !in s && '>' !in s ==> r == s
  {
    ReplaceAll(ReplaceAll(ReplaceAll(s, '&', "&amp;"), '<', "&lt;"), '>', "&gt;")
  }

  /** The entity one character stands for in the output. */
  function EscapeChar(c: char): string {
    if c == '&' then "&amp;" else if c == '<' then "&lt;" else if c == '>' then "&gt;" else [c]
  }

  /** Escaping character by character, each character once. */
  function EscapeEach(s: string): string {
    if s == [] then [] else EscapeChar(s[0]) + EscapeEach(s[1..])
  }

  /** Reading entities back: `&amp;`, `&lt;` and `&gt;` become the
      character they stand for. */
  function Unescape(s: string): string
    decreases |s|
  {
    if s == [] then []
    else if StartsWith(s, "&amp;") then "&" + Unescape(s[5..])
    else if StartsWith(s, "&lt;") then "<" + Unescape(s[4..])
    else if StartsWith(s, "&gt;") then ">" + Unescape(s[4..])
    else [s[0]] + Unescape(s[1..])
  }

  /** The three passes of `escapeXml` together escape each character of
      the input exactly once: because `&` goes first, the `&` of an entity
      made by a later pass is never escaped again, and the entities made by
      the first pass contain neither `<` nor `>`. */
  lemma {:induction false} EscapeXmlIsCharwise(s: string)
    ensures EscapeXml(s) == EscapeEach(s)
  {
    if s != [] {
      var c, t := s[0], s[1..];
      assert s == [c] + t;
      EscapeXmlIsCharwise(t);
      var a := ReplaceAll([c], '&', "&amp;");
      var b := ReplaceAll(a, '<', "&lt;");
      calc {
        EscapeXml(s);
        { ReplaceAllAppend([c], t, '&', "&amp;"); }
        ReplaceAll(ReplaceAll(a + ReplaceAll(t, '&', "&amp;"), '<', "&lt;"), '>', "&gt;");
        { ReplaceAllAppend(a, ReplaceAll(t, '&', "&amp;"), '<', "&lt;"); }
        ReplaceAll(b + ReplaceAll(ReplaceAll(t, '&', "&amp;"), '<', "&lt;"), '>', "&gt;");
        { ReplaceAllAppend(b, ReplaceAll(ReplaceAll(t, '&', "&amp;"), '<', "&lt;"), '>', "&gt;"); }
        ReplaceAll(b, '>', "&gt;") + EscapeXml(t);
        { EscapeOneChar(c); }
        EscapeChar(c) + EscapeEach(t);
      }
    }
  }

  lemma EscapeOneChar(c: char)
    ensures ReplaceAll(ReplaceAll(ReplaceAll([c], '&', "&amp;"), '<', "&lt;"), '>', "&gt;") == EscapeChar(c)
  {
    ReplaceOne(c, '&', "&amp;");
    if c == '&' {
      var e := "&amp;";
      assert '<' !in e && '>' !in e by {
        assert forall i :: 0 <= i < |e| ==> e[i] == '&' || e[i] == 'a' || e[i] == 'm' || e[i] == 'p' || e[i] == ';';
      }
    } else {
      ReplaceOne(c, '<', "&lt;");
      if c == '<' {
        var e := "&lt;";
        assert '>' !in e by {
          assert forall i :: 0 <= i < |e| ==> e[i] == '&' || e[i] == 'l' || e[i] == 't' || e[i] == ';';
        }
      } else {
        ReplaceOne(c, '>', "&gt;");
      }
    }
  }

  /** Replacing in a one-character string. */
  lemma ReplaceOne(c: char, d: char, rep: string)
    ensures ReplaceAll([c], d, rep) == if c == d then rep else [c]
  {
    assert [c][1..] == [];
  }

  /** Unescaping the escaped text gives the label back: escaping loses
      nothing. */
  lemma {:induction false} UnescapeEscapeXml(s: string)
    ensures Unescape(EscapeXml(s)) == s
  {
    EscapeXmlIsCharwise(s);
    UnescapeEscapeEach(s);
  }

  lemma {:induction false} UnescapeEscapeEach(s: string)
    ensures Unescape(EscapeEach(s)) == s
  {
    if s != [] {
      var c, t := s[0], s[1..];
      UnescapeEscapeEach(t);
      UnescapeEscapeChar(c, EscapeEach(t));
      assert EscapeEach(s) == EscapeChar(c) + EscapeEach(t);
      assert s == [c] + t;
    }
  }

  /** Unescaping reads the entity of one character back as that
      character, whatever follows. */
  lemma UnescapeEscapeChar(c: char, t: string)
    ensures Unescape(EscapeChar(c) + t) == [c] + Unescape(t)
  {
    if c == '&' {
      UnescapeAmp(t);
    } else if c == '<' {
      UnescapeLt(t);
    } else if c == '>' {
      UnescapeGt(t);
    } else {
      UnescapePlain(c, t);
    }
  }

  lemma UnescapeAmp(t: string)
    ensures Unescape("&amp;" + t) == "&" + Unescape(t)
  {
    var e := "&amp;" + t;
    assert StartsWith(e, "&amp;");
    assert e[5..] == t;
  }

  lemma UnescapeLt(t: string)
    ensures Unescape("&lt;" + t) == "<" + Unescape(t)
  {
    var e := "&lt;" + t;
    assert !StartsWith(e, "&amp;") by { assert e[1] == 'l'; }
    assert StartsWith(e, "&lt;");
    assert e[4..] == t;
  }

  lemma UnescapeGt(t: string)
    ensures Unescape("&gt;" + t) == ">" + Unescape(t)
  {
    var e := "&gt;" + t;
    assert !StartsWith(e, "&amp;") by { assert e[1] == 'g'; }
    assert !StartsWith(e, "&lt;") by { assert e[1] == 'g'; }
    assert StartsWith(e, "&gt;");
    assert e[4..] == t;
  }

  lemma UnescapePlain(c: char, t: string)
    requires c != '&'
    ensures Unescape([c] + t) == [c] + Unescape(t)
  {
    var e := [c] + t;
    assert e[0] == c && e[1..] == t;
  }

  // ---------------------------------------------------------------------
  // makeKeySvg
  // ---------------------------------------------------------------------

  const Width := 128
  const Height := 128
  const FontSize := 20
  const LineHeight := 32

  /** `Math.round` on a number: the nearest integer, halves rounded up. */
  function Round(x: real): int {
    (x + 0.5).Floor
  }

  /** `firstY`: the first baseline, centring the block of `n` lines, in the
      floating-point arithmetic of the source. */
  function FirstBaseline(n: nat): int {
    Round((Height as real) / 2.0 - (((n - 1) * LineHeight) as real) / 2.0 + (FontSize as real) / 2.0)
  }

  /** The baseline of line `i` of `n`: `Math.round(firstY + i * lineHeight)`. */
  function Baseline(n: nat, i: nat): int {
    Round(FirstBaseline(n) as real + (i * LineHeight) as real)
  }

  /** All the layout arithmetic is integral, so both roundings are exact:
      line `i` of `n` sits at `74 - 16 (n - 1) + 32 i`. */
  lemma BaselineExact(n: nat, i: nat)
    ensures FirstBaseline(n) == 74 - 16 * (n - 1)
    ensures Baseline(n, i) == 74 - 16 * (n - 1) + 32 * i
  {
    var k := 74 - 16 * (n - 1);
    assert (Height as real) / 2.0 - (((n - 1) * LineHeight) as real) / 2.0 + (FontSize as real) / 2.0
        == k as real;
    RoundInteger(k);
    RoundInteger(k + 32 * i);
  }

  lemma RoundInteger(k: int)
    ensures Round(k as real) == k
  {
  }

  /** Consecutive lines are one line height apart. */
  lemma BaselineStep(n: nat, i: nat)
    ensures Baseline(n, i + 1) - Baseline(n, i) == LineHeight
  {
    BaselineExact(n, i);
    BaselineExact(n, i + 1);
  }

  /** The block is symmetric about the tile's centre line plus half the
      font size: line `i` and line `n - 1 - i` add up to 148. */
  lemma BaselineSymmetric(n: nat, i: nat)
    requires i < n
    ensures Baseline(n, i) + Baseline(n, n - 1 - i) == 2 * (Height / 2 + FontSize / 2)
  {
    BaselineExact(n, i);
    BaselineExact(n, n - 1 - i);
  }

  const SvgOpen := "<svg xmlns=\"http://www.w3.org/2000/svg\" width=\"128\" height=\"128\" viewBox=\"0 0 128 128\">"
  const RectLine := "  <rect width=\"128\" height=\"128\" rx=\"18\" fill=\"#111\"/>"
  const SvgClose := "</svg>"

  /** The opening tag of one label line: centred at `x = W / 2`, on
      baseline `y`. */
  function TextOpenTag(y: int): string {
    "  <text x=\"" + IntToString(Width / 2) + "\" y=\"" + IntToString(y)
      + "\" text-anchor=\"middle\" font-family=\"Arial, Segoe UI\" font-size=\"" + IntToString(FontSize)
      + "\" fill=\"#fff\">"
  }

  const TextCloseTag := "</text>"

  /** One label line, its text escaped. */
  function TextElement(y: int, line: string): string {
    TextOpenTag(y) + EscapeXml(line) + TextCloseTag
  }

  /** `lines.map((line, i) => <text ...>)`. */
  function TextElements(lines: seq<string>): seq<string> {
    seq(|lines|, i requires 0 <= i < |lines| => TextElement(Baseline(|lines|, i), lines[i]))
  }

  /** `makeKeySvg(lines)`. */
  function MakeKeySvg(lines: seq<string>): string {
    SvgOpen + "\n" + RectLine + "\n" + Join(TextElements(lines), '\n') + "\n" + SvgClose
  }

  lemma {:induction false} JoinAppend(a: seq<string>, b: seq<string>, sep: char)
    requires a != [] && b != []
    ensures Join(a + b, sep) == Join(a, sep) + [sep] + Join(b, sep)
    decreases |a|
  {
    if |a| == 1 {
      assert (a + b)[1..] == b;
    } else {
      assert (a + b)[1..] == a[1..] + b;
      JoinAppend(a[1..], b, sep);
    }
  }

  /** For a non-empty list of labels (the only kind the button draws), the
      face is, line by line, the `svg` opening tag, the background `rect`,
      one `text` element per label in label order, and the closing tag. */
  lemma KeySvgLines(lines: seq<string>)
    requires lines != []
    ensures MakeKeySvg(lines) == Join([SvgOpen, RectLine] + TextElements(lines) + [SvgClose], '\n')
  {
    var els := TextElements(lines);
    JoinAppend([SvgOpen, RectLine] + els, [SvgClose], '\n');
    JoinAppend([SvgOpen, RectLine], els, '\n');
    assert Join([SvgOpen, RectLine], '\n') == SvgOpen + "\n" + RectLine by {
      assert [SvgOpen, RectLine][1..] == [RectLine];
    }
  }

  /** The text of a `text` element, between its tags, holds no `<` or `>`
      (a label cannot break out of its element) and reads back as the
      label. */
  lemma TextElementContent(y: int, line: string)
    ensures var e := TextElement(y, line);
      var inner := e[|TextOpenTag(y)|..|e| - |TextCloseTag|];
      && StartsWith(e, TextOpenTag(y))
      && e[|e| - |TextCloseTag|..] == TextCloseTag
      && '<' !in inner && '>' !in inner
      && Unescape(inner) == line
  {
    Framed(TextOpenTag(y), EscapeXml(line), TextCloseTag);
    UnescapeEscapeXml(line);
  }

  lemma Framed(open: string, inner: string, close: string)
    ensures var e := open + inner + close;
      && StartsWith(e, open)
      && e[|e| - |close|..] == close
      && e[|open|..|e| - |close|] == inner
  {
  }

  /** The `i`-th element of the face is the `i`-th label's, on baseline
      `74 - 16 (n - 1) + 32 i`. */
  lemma TextElementAt(lines: seq<string>, i: nat)
    requires i < |lines|
    ensures TextElements(lines)[i] == TextElement(74 - 16 * (|lines| - 1) + 32 * i, lines[i])
  {
    BaselineExact(|lines|, i);
  }

  const DataUrlPrefix := "data:image/svg+xml;charset=utf8,"

  /** The URL the face is sent as; `encodeURIComponent` is a parameter. */
  function SvgDataUrl(svg: string, encodeUriComponent: string -> string): (url: string)
    ensures Includes(url, "data:")
  {
    IncludesAt(DataUrlPrefix + encodeUriComponent(svg), "data:", 0);
    DataUrlPrefix + encodeUriComponent(svg)
  }
}
