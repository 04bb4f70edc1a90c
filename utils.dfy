/** The string and number helpers of utils.js (duplicated verbatim at the top of
    app.js): sanitizeNumber, toNum, formatNum, valuesToCopyText, escapeHtml and
    the degree/radian conversions. parseFloat and the locale-dependent number
    rendering are parameters. */
module Utils {
  import opened Wrappers
  import opened JsMath
  import opened Seqs

  /** One labelled result value `{label, value, unit}`, the element type of a result list
      (`label` is a Dafny keyword, hence `caption`). */
  datatype Entry = Entry(caption: string, value: Num, unit: string)

  /** The characters String.prototype.trim removes: ECMAScript WhiteSpace and LineTerminator. */
  predicate IsSpace(c: char) {
    || c in {'\t', '\n', '\U{B}', '\U{C}', '\r', ' ', '\U{A0}', '\U{1680}', '\U{2028}', '\U{2029}',
             '\U{202F}', '\U{205F}', '\U{3000}', '\U{FEFF}'}
    || ('\U{2000}' <= c <= '\U{200A}')
  }

  function TrimStart(s: string): (r: string)
    ensures |r| <= |s| && r == s[|s| - |r|..]
    ensures forall i :: 0 <= i < |s| - |r| ==> IsSpace(s[i])
    ensures r == "" || !IsSpace(r[0])
  {
    if |s| > 0 && IsSpace(s[0]) then TrimStart(s[1..]) else s
  }

  function TrimEnd(s: string): (r: string)
    ensures |r| <= |s| && r == s[..|r|]
    ensures forall i :: |r| <= i < |s| ==> IsSpace(s[i])
    ensures r == "" || !IsSpace(r[|r| - 1])
  {
    if |s| > 0 && IsSpace(s[|s| - 1]) then TrimEnd(s[..|s| - 1]) else s
  }

  /** `s.trim()` */
  function Trim(s: string): string {
    TrimEnd(TrimStart(s))
  }

  predicate Trimmed(s: string) {
    s == "" || (!IsSpace(s[0]) && !IsSpace(s[|s| - 1]))
  }

  /** trim() keeps a contiguous piece of its input, drops only white space, and leaves no white space at either end. */
  lemma TrimSpec(s: string)
    ensures Trimmed(Trim(s))
    ensures exists i, j :: 0 <= i <= j <= |s| && Trim(s) == s[i..j]
    ensures forall k :: 0 <= k < |s| && !IsSpace(s[k]) ==> s[k] in Trim(s)
  {
    var t := TrimStart(s);
    var r := TrimEnd(t);
    var i := |s| - |t|;
    assert r == s[i..i + |r|];
    assert r != "" ==> r[0] == t[0];
    forall k | 0 <= k < |s| && !IsSpace(s[k]) ensures s[k] in r {
      assert i <= k < i + |r|;
      assert s[k] == r[k - i];
    }
  }

  /** A string with no white space at its ends is left unchanged by trim(). */
  lemma TrimFixesTrimmed(s: string)
    requires Trimmed(s)
    ensures Trim(s) == s
  {
  }

  function NotComma(c: char): bool { c != ',' }

  /** `sanitizeNumber(s)`: null and undefined become "", otherwise every comma is removed and the ends are trimmed. */
  function SanitizeNumber(s: Option<string>): (r: string)
    ensures s.None? ==> r == ""
    ensures ',' !in r
    ensures Trimmed(r)
    ensures s.Some? ==> forall k :: 0 <= k < |s.value| && s.value[k] != ',' && !IsSpace(s.value[k]) ==> s.value[k] in r
  {
    match s
    case None => ""
    case Some(text) =>
      var noCommas := Filter(text, NotComma);
      TrimSpec(noCommas);
      assert forall k :: 0 <= k < |text| && text[k] != ',' ==> text[k] in noCommas;
      Trim(noCommas)
  }

  /** Sanitizing is idempotent. */
  lemma SanitizeIdempotent(s: Option<string>)
    ensures SanitizeNumber(Some(SanitizeNumber(s))) == SanitizeNumber(s)
  {
    var r := SanitizeNumber(s);
    FilterKeepsAll(r, NotComma);
    TrimFixesTrimmed(r);
  }

  /** `toNum(s)`: parseFloat of the sanitized text, kept only when finite; None stands for null. */
  function ToNum(parse: string -> Num, s: Option<string>): (r: Option<real>)
    ensures r.Some? <==> parse(SanitizeNumber(s)).Finite?
    ensures r.Some? ==> parse(SanitizeNumber(s)) == Finite(r.value)
  {
    match parse(SanitizeNumber(s))
    case Finite(x) => Some(x)
    case NonFinite => None
  }

  /** toNum sanitizes internally, so sanitizing first changes nothing. */
  lemma ToNumIgnoresSanitizing(parse: string -> Num, s: Option<string>)
    ensures ToNum(parse, Some(SanitizeNumber(s))) == ToNum(parse, s)
  {
    SanitizeIdempotent(s);
  }

  /** `formatNum(x, places)`: "-" for a non-finite number; a finite one is rendered by `show`
      (Math.round to the precision and toLocaleString, which the model does not define). */
  function FormatNum(x: Num, show: real -> string): (r: string)
    ensures x.NonFinite? ==> r == "-"
    ensures x.Finite? ==> r == show(x.r)
  {
    match x
    case Finite(v) => show(v)
    case NonFinite => "-"
  }

  function IsFiniteEntry(e: Entry): bool { e.value.Finite? }

  /** The line `valuesToCopyText` writes for one entry. */
  function CopyLine(e: Entry, show: real -> string): string {
    Trim(e.caption + ": " + FormatNum(e.value, show) + " " + e.unit)
  }

  function CopyLines(values: seq<Entry>, show: real -> string): seq<string> {
    Map(Filter(values, IsFiniteEntry), e => CopyLine(e, show))
  }

  /** `valuesToCopyText(values, places)` */
  function ValuesToCopyText(values: seq<Entry>, show: real -> string): string {
    Join(CopyLines(values, show), "\n")
  }

  /** The lines are those of the finite entries only, each in its original position relative to the others:
      a single entry gives one line if finite and none otherwise, and a concatenation gives the
      concatenation of the lines. */
  lemma CopyLinesKeepFiniteInOrder(a: seq<Entry>, b: seq<Entry>, e: Entry, show: real -> string)
    ensures CopyLines(a + b, show) == CopyLines(a, show) + CopyLines(b, show)
    ensures CopyLines([e], show) == if e.value.Finite? then [CopyLine(e, show)] else []
    ensures |CopyLines(a, show)| <= |a|
  {
    FilterConcat(a, b, IsFiniteEntry);
    MapConcat(Filter(a, IsFiniteEntry), Filter(b, IsFiniteEntry), e => CopyLine(e, show));
    assert [e][1..] == [];
  }

  /** When every value is finite there is one line per entry, in order. */
  lemma CopyLinesAllFinite(values: seq<Entry>, show: real -> string)
    requires forall i :: 0 <= i < |values| ==> values[i].value.Finite?
    ensures |CopyLines(values, show)| == |values|
    ensures forall i :: 0 <= i < |values| ==> CopyLines(values, show)[i] == CopyLine(values[i], show)
  {
    FilterKeepsAll(values, IsFiniteEntry);
  }

  /** The replacement escapeHtml makes for one character. */
  function EscapeChar(c: char): string {
    if c == '&' then "&amp;"
    else if c == '<' then "&lt;"
    else if c == '>' then "&gt;"
    else if c == '"' then "&quot;"
    else if c == '\'' then "&#039;"
    else [c]
  }

  predicate IsHtmlSpecial(c: char) {
    c == '&' || c == '<' || c == '>' || c == '"' || c == '\''
  }

  /** `escapeHtml(s)`: each of `& < > " '` becomes its entity, every other character is copied. */
  function EscapeHtml(s: string): (r: string)
    ensures forall i :: 0 <= i < |r| ==> r[i] != '<' && r[i] != '>' && r[i] != '"' && r[i] != '\''
    ensures (forall i :: 0 <= i < |s| ==> !IsHtmlSpecial(s[i])) ==> r == s
    ensures |r| >= |s|
  {
    if |s| == 0 then "" else EscapeChar(s[0]) + EscapeHtml(s[1..])
  }

  predicate StartsWith(s: string, prefix: string) {
    |prefix| <= |s| && s[..|prefix|] == prefix
  }

  /** Decoding of the five entities escapeHtml produces; the reference inverse of EscapeHtml. */
  function UnescapeHtml(s: string): string
    decreases |s|
  {
    if |s| == 0 then ""
    else if StartsWith(s, "&amp;") then "&" + UnescapeHtml(s[5..])
    else if StartsWith(s, "&lt;") then "<" + UnescapeHtml(s[4..])
    else if StartsWith(s, "&gt;") then ">" + UnescapeHtml(s[4..])
    else if StartsWith(s, "&quot;") then "\"" + UnescapeHtml(s[6..])
    else if StartsWith(s, "&#039;") then "'" + UnescapeHtml(s[6..])
    else [s[0]] + UnescapeHtml(s[1..])
  }

  lemma UnescapeStep(c: char, rest: string)
    ensures UnescapeHtml(EscapeChar(c) + rest) == [c] + UnescapeHtml(rest)
  {
    if c == '&' {
      UnescapeEntity("&amp;", rest);
    } else if c == '<' {
      UnescapeEntity("&lt;", rest);
    } else if c == '>' {
      UnescapeEntity("&gt;", rest);
    } else if c == '"' {
      UnescapeEntity("&quot;", rest);
    } else if c == '\'' {
      UnescapeEntity("&#039;", rest);
    } else {
      UnescapePlain(c, rest);
    }
  }

  /** An entity at the front decodes to its character. */
  lemma UnescapeEntity(e: string, rest: string)
    requires e in ["&amp;", "&lt;", "&gt;", "&quot;", "&#039;"]
    ensures UnescapeHtml(e + rest) == [EntityChar(e)] + UnescapeHtml(rest)
  {
    var t := e + rest;
    assert t[..|e|] == e && t[|e|..] == rest;
    assert t[0] == '&' && t[1] == e[1];
    if e == "&amp;" {
      assert StartsWith(t, "&amp;");
    } else if e == "&lt;" {
      assert !StartsWith(t, "&amp;");
    } else if e == "&gt;" {
      assert !StartsWith(t, "&amp;") && !StartsWith(t, "&lt;");
    } else if e == "&quot;" {
      assert !StartsWith(t, "&amp;") && !StartsWith(t, "&lt;") && !StartsWith(t, "&gt;");
    } else {
      assert !StartsWith(t, "&amp;") && !StartsWith(t, "&lt;") && !StartsWith(t, "&gt;") && !StartsWith(t, "&quot;");
    }
  }

  function EntityChar(e: string): char {
    if e == "&amp;" then '&' else if e == "&lt;" then '<' else if e == "&gt;" then '>'
    else if e == "&quot;" then '"' else '\''
  }

  /** A character that is not an ampersand is copied. */
  lemma UnescapePlain(c: char, rest: string)
    requires c != '&'
    ensures UnescapeHtml([c] + rest) == [c] + UnescapeHtml(rest)
  {
    var t := [c] + rest;
    assert t[0] == c && t[1..] == rest;
    assert !StartsWith(t, "&amp;") && !StartsWith(t, "&lt;") && !StartsWith(t, "&gt;");
    assert !StartsWith(t, "&quot;") && !StartsWith(t, "&#039;");
  }

  /** Escaping loses nothing: decoding the escaped text gives back the original, character for character. */
  lemma {:induction false} UnescapeEscape(s: string)
    ensures UnescapeHtml(EscapeHtml(s)) == s
  {
    if |s| > 0 {
      UnescapeStep(s[0], EscapeHtml(s[1..]));
      UnescapeEscape(s[1..]);
      assert [s[0]] + s[1..] == s;
    }
  }

  /** `degToRad(deg)` */
  function DegToRad(deg: real): real { deg * PI / 180.0 }

  /** `radToDeg(rad)` */
  function RadToDeg(rad: real): real { rad * 180.0 / PI }

  lemma DegreesRoundTrip(deg: real)
    ensures RadToDeg(DegToRad(deg)) == deg
  {
  }
}
