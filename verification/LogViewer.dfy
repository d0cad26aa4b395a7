/** Rendering one log line: HTML escaping and terminal colours (LogViewer.tsx). */
module LogViewer {
  import opened Options

  // ----- Escaping -----

  /** A global replace of one character. */
  function ReplaceAll(s: string, c: char, with: string): string {
    if s == [] then [] else (if s[0] == c then with else [s[0]]) + ReplaceAll(s[1..], c, with)
  }

  /** The four replacements, one after the other. */
  function EscapeHtml(text: string): string {
    ReplaceAll(ReplaceAll(ReplaceAll(ReplaceAll(text, '&', "&amp;"), '<', "&lt;"), '>', "&gt;"), '"', "&quot;")
  }

  function EscapeChar(c: char): string {
    if c == '&' then "&amp;"
    else if c == '<' then "&lt;"
    else if c == '>' then "&gt;"
    else if c == '"' then "&quot;"
    else [c]
  }

  /** The same in one pass, character by character. */
  function Escaped(text: string): string {
    if text == [] then [] else EscapeChar(text[0]) + Escaped(text[1..])
  }

  function Unescape(s: string): string
    decreases |s|
  {
    if s == [] then []
    else if "&amp;" <= s then ['&'] + Unescape(s[5..])
    else if "&lt;" <= s then ['<'] + Unescape(s[4..])
    else if "&gt;" <= s then ['>'] + Unescape(s[4..])
    else if "&quot;" <= s then ['"'] + Unescape(s[6..])
    else [s[0]] + Unescape(s[1..])
  }

  lemma {:induction false} ReplaceAppend(a: string, b: string, c: char, with: string)
    ensures ReplaceAll(a + b, c, with) == ReplaceAll(a, c, with) + ReplaceAll(b, c, with)
  {
    if a == [] {
      assert a + b == b;
    } else {
      assert (a + b)[1..] == a[1..] + b;
      ReplaceAppend(a[1..], b, c, with);
    }
  }

  lemma {:induction false} ReplaceAbsent(s: string, c: char, with: string)
    requires c !in s
    ensures ReplaceAll(s, c, with) == s
  {
    if s != [] {
      ReplaceAbsent(s[1..], c, with);
    }
  }

  lemma EscapeAppend(a: string, b: string)
    ensures EscapeHtml(a + b) == EscapeHtml(a) + EscapeHtml(b)
  {
    ReplaceAppend(a, b, '&', "&amp;");
    var a1, b1 := ReplaceAll(a, '&', "&amp;"), ReplaceAll(b, '&', "&amp;");
    ReplaceAppend(a1, b1, '<', "&lt;");
    var a2, b2 := ReplaceAll(a1, '<', "&lt;"), ReplaceAll(b1, '<', "&lt;");
    ReplaceAppend(a2, b2, '>', "&gt;");
    var a3, b3 := ReplaceAll(a2, '>', "&gt;"), ReplaceAll(b2, '>', "&gt;");
    ReplaceAppend(a3, b3, '"', "&quot;");
  }

  lemma ReplaceOne(x: char, c: char, with: string)
    ensures ReplaceAll([x], c, with) == if x == c then with else [x]
  {
    assert [x][1..] == [];
  }

  lemma EscapeOne(c: char)
    ensures EscapeHtml([c]) == EscapeChar(c)
  {
    hide ReplaceAll;
    ReplaceOne(c, '&', "&amp;");
    ReplaceOne(c, '<', "&lt;");
    ReplaceOne(c, '>', "&gt;");
    ReplaceOne(c, '"', "&quot;");
    if c == '&' {
      ReplaceAbsent("&amp;", '<', "&lt;");
      ReplaceAbsent("&amp;", '>', "&gt;");
      ReplaceAbsent("&amp;", '"', "&quot;");
    } else if c == '<' {
      ReplaceAbsent("&lt;", '>', "&gt;");
      ReplaceAbsent("&lt;", '"', "&quot;");
    } else if c == '>' {
      ReplaceAbsent("&gt;", '"', "&quot;");
    }
  }

  /** The four successive replacements are one character-wise substitution. */
  lemma {:induction false} EscapeIsOnePass(text: string)
    ensures EscapeHtml(text) == Escaped(text)
  {
    if text != [] {
      assert text == [text[0]] + text[1..];
      EscapeAppend([text[0]], text[1..]);
      EscapeOne(text[0]);
      EscapeIsOnePass(text[1..]);
    }
  }

  ghost predicate NoMarkup(s: string) {
    '<' !in s && '>' !in s && '"' !in s
  }

  lemma {:induction false} EscapedIsPlain(text: string)
    ensures NoMarkup(Escaped(text))
  {
    if text != [] {
      EscapedIsPlain(text[1..]);
    }
  }

  lemma UnescapeStep(c: char, rest: string)
    ensures Unescape(EscapeChar(c) + rest) == [c] + Unescape(rest)
  {
    var s := EscapeChar(c) + rest;
    assert EscapeChar(c) <= s && s[|EscapeChar(c)|..] == rest && s[0] == EscapeChar(c)[0];
    if c == '&' {
      assert "&amp;" <= s;
    } else if c == '<' || c == '>' || c == '"' {
      assert s[1] == EscapeChar(c)[1];
    } else {
      assert s[0] != '&' && s[1..] == rest;
    }
  }

  lemma {:induction false} UnescapeEscaped(text: string)
    ensures Unescape(Escaped(text)) == text
  {
    if text != [] {
      UnescapeStep(text[0], Escaped(text[1..]));
      UnescapeEscaped(text[1..]);
    }
  }

  /** Escaped text carries no markup and loses nothing. */
  lemma EscapeSafeAndInvertible(text: string)
    ensures NoMarkup(EscapeHtml(text)) && Unescape(EscapeHtml(text)) == text
  {
    EscapeIsOnePass(text);
    EscapedIsPlain(text);
    UnescapeEscaped(text);
  }

  // ----- Terminal colour sequences -----

  const ESC: char := '\U{1B}'
  const COLORS: map<string, string> := map[
    "30" := "#000", "31" := "#c00", "32" := "#0a0", "33" := "#a50",
    "34" := "#00c", "35" := "#c0c", "36" := "#0cc", "37" := "#ccc",
    "90" := "#555", "91" := "#f55", "92" := "#5f5", "93" := "#ff5",
    "94" := "#55f", "95" := "#f5f", "96" := "#5ff", "97" := "#fff"]

  predicate IsCodeChar(c: char) {
    '0' <= c <= '9' || c == ';'
  }

  function CodeLength(s: string): (n: nat)
    ensures n <= |s|
  {
    if s == [] || !IsCodeChar(s[0]) then 0 else 1 + CodeLength(s[1..])
  }

  /** The length of a colour sequence at the start of `s`: escape, bracket, codes, `m`. */
  function Sequence(s: string): (n: Option<nat>)
    ensures n.Some? ==> 3 <= n.value <= |s| && s[0] == ESC
  {
    if |s| < 2 || s[0] != ESC || s[1] != '[' then None
    else
      var k := 2 + CodeLength(s[2..]);
      if k < |s| && s[k] == 'm' then Some(k + 1) else None
  }

  function Codes(s: string): string
    requires Sequence(s).Some?
  {
    s[2..Sequence(s).value - 1]
  }

  function SplitCodes(s: string): seq<string>
    decreases |s|
  {
    if s == [] then [[]]
    else if s[0] == ';' then [[]] + SplitCodes(s[1..])
    else
      var rest := SplitCodes(s[1..]);
      if rest == [] then [[s[0]]] else [[s[0]] + rest[0]] + rest[1..]
  }

  predicate IsReset(code: string) {
    code == "0" || code == ""
  }

  function StyleOf(code: string): seq<string> {
    (if code == "1" then ["font-weight:bold"] else []) + (if code in COLORS then ["color:" + COLORS[code]] else [])
  }

  function Styles(codes: seq<string>): seq<string> {
    if codes == [] then []
    else Styles(codes[..|codes| - 1]) + (if IsReset(codes[|codes| - 1]) then [] else StyleOf(codes[|codes| - 1]))
  }

  function Join(parts: seq<string>): string {
    if parts == [] then []
    else if |parts| == 1 then parts[0]
    else parts[0] + ";" + Join(parts[1..])
  }

  const CLOSE := "</span>"
  const OPEN := "<span style=\""

  /** The markup for one sequence, and whether a span is open after it. */
  function Markup(codes: seq<string>, open: bool): (string, bool) {
    var styles := Styles(codes);
    var reset := exists code :: code in codes && IsReset(code);
    var closing := open && (reset || styles != []);
    ((if closing then CLOSE else "") + (if styles != [] then OPEN + Join(styles) + "\">" else ""),
     if styles != [] then true else if closing then false else open)
  }

  /** The line from here on, given whether a span is open. */
  function Render(s: string, open: bool): string
    decreases |s|
  {
    if s == [] then (if open then CLOSE else "")
    else
      match Sequence(s)
      case Some(n) =>
        var (out, open') := Markup(SplitCodes(Codes(s)), open);
        out + Render(s[n..], open')
      case None => [s[0]] + Render(s[1..], open)
  }

  function AnsiToHtml(text: string): string {
    Render(EscapeHtml(text), false)
  }

  lemma StylesSnoc(codes: seq<string>, code: string)
    ensures Styles([]) == []
    ensures Styles(codes + [code]) == Styles(codes) + (if IsReset(code) then [] else StyleOf(code))
  {
    assert (codes + [code])[..|codes|] == codes;
  }

  method CollectStyles(codes: seq<string>) returns (styles: seq<string>, hasReset: bool)
    ensures styles == Styles(codes) && (hasReset <==> exists code :: code in codes && IsReset(code))
  {
    hide Styles;
    StylesSnoc([], "");
    styles, hasReset := [], false;
    for i := 0 to |codes|
      invariant styles == Styles(codes[..i])
      invariant hasReset <==> exists code :: code in codes[..i] && IsReset(code)
    {
      var code := codes[i];
      assert codes[..i + 1] == codes[..i] + [code];
      StylesSnoc(codes[..i], code);
      if code == "0" || code == "" {
        assert code in codes[..i + 1] && IsReset(code);
        hasReset := true;
        continue;
      }
      if code == "1" {
        styles := styles + ["font-weight:bold"];
      }
      if code in COLORS {
        styles := styles + ["color:" + COLORS[code]];
      }
    }
    assert codes[..|codes|] == codes;
  }

  /** The callback of the replacement. */
  method ReplaceSequence(codes: seq<string>, open: bool) returns (out: string, stillOpen: bool)
    ensures (out, stillOpen) == Markup(codes, open)
  {
    var styles, hasReset := CollectStyles(codes);
    hide Styles, IsReset, Join;
    out, stillOpen := "", open;
    if stillOpen && (hasReset || |styles| > 0) {
      out := CLOSE;
      stillOpen := false;
    }
    if |styles| > 0 {
      out := out + (OPEN + Join(styles) + "\">");
      stillOpen := true;
    } else {
      assert out + "" == out;
    }
  }

  method RenderLine(text: string) returns (html: string)
    ensures html == AnsiToHtml(text)
  {
    hide Markup, SplitCodes, Codes, EscapeHtml, Sequence;
    var escaped := EscapeHtml(text);
    var open := false;
    html := "";
    var i := 0;
    while i < |escaped|
      invariant 0 <= i <= |escaped|
      invariant html + Render(escaped[i..], open) == Render(escaped, false)
    {
      RenderStep(html, escaped, i, open);
      var found := Sequence(escaped[i..]);
      if found.Some? {
        var out, stillOpen := ReplaceSequence(SplitCodes(Codes(escaped[i..])), open);
        html := html + out;
        open := stillOpen;
        i := i + found.value;
      } else {
        html := html + [escaped[i]];
        i := i + 1;
      }
    }
    if open {
      html := html + CLOSE;
    }
  }

  lemma RenderStep(html: string, s: string, i: nat, open: bool)
    requires i < |s|
    ensures match Sequence(s[i..])
            case Some(n) =>
              var (out, open') := Markup(SplitCodes(Codes(s[i..])), open);
              html + Render(s[i..], open) == (html + out) + Render(s[i + n..], open')
            case None => html + Render(s[i..], open) == (html + [s[i]]) + Render(s[i + 1..], open)
  {
    hide Sequence, Markup, SplitCodes, Codes;
    match Sequence(s[i..])
    case Some(n) => assert s[i..][n..] == s[i + n..];
    case None => assert s[i..][1..] == s[i + 1..];
  }

  // ----- The text under the tags -----

  function RemoveSequences(s: string): string
    decreases |s|
  {
    if s == [] then []
    else
      match Sequence(s)
      case Some(n) => RemoveSequences(s[n..])
      case None => [s[0]] + RemoveSequences(s[1..])
  }

  /** Drops everything from each `<` to the next `>`. */
  function StripTags(s: string, inTag: bool): string
    decreases |s|
  {
    if s == [] then []
    else if inTag then StripTags(s[1..], s[0] != '>')
    else if s[0] == '<' then StripTags(s[1..], true)
    else [s[0]] + StripTags(s[1..], false)
  }

  lemma {:induction false} InsideTag(inner: string, rest: string)
    requires '>' !in inner
    ensures StripTags(inner + ">" + rest, true) == StripTags(rest, false)
    decreases |inner|
  {
    if inner == [] {
      assert inner + ">" + rest == ">" + rest;
      assert (">" + rest)[1..] == rest;
    } else {
      assert (inner + ">" + rest)[1..] == inner[1..] + ">" + rest;
      InsideTag(inner[1..], rest);
    }
  }

  lemma StripTag(inner: string, rest: string)
    requires '>' !in inner
    ensures StripTags("<" + inner + ">" + rest, false) == StripTags(rest, false)
  {
    assert ("<" + inner + ">" + rest)[1..] == inner + ">" + rest;
    InsideTag(inner, rest);
  }

  lemma {:induction false} StylesArePlain(codes: seq<string>)
    ensures forall st :: st in Styles(codes) ==> NoMarkup(st)
  {
    if codes != [] {
      StylesArePlain(codes[..|codes| - 1]);
      StyleIsPlain(codes[|codes| - 1]);
    }
  }

  lemma StyleIsPlain(code: string)
    ensures forall st :: st in StyleOf(code) ==> NoMarkup(st)
  {
    if code in COLORS {
      ColorIsPlain(code);
    }
  }

  lemma ColorIsPlain(code: string)
    requires code in COLORS
    ensures NoMarkup(COLORS[code])
  {
  }

  lemma {:induction false} JoinIsPlain(parts: seq<string>)
    requires forall p :: p in parts ==> NoMarkup(p)
    ensures NoMarkup(Join(parts))
  {
    if parts != [] {
      assert parts[0] in parts;
      JoinIsPlain(parts[1..]);
    }
  }

  /** What a span opens with is plain but for its own quotes. */
  lemma MarkupIsPlain(codes: seq<string>)
    ensures NoMarkup(Join(Styles(codes)))
  {
    StylesArePlain(codes);
    JoinIsPlain(Styles(codes));
  }

  lemma StripClose(rest: string)
    ensures StripTags(CLOSE + rest, false) == StripTags(rest, false)
  {
    StripTag("/span", rest);
    assert CLOSE + rest == "<" + "/span" + ">" + rest;
  }

  lemma StripOpen(styles: string, rest: string)
    requires NoMarkup(styles)
    ensures StripTags(OPEN + styles + "\">" + rest, false) == StripTags(rest, false)
  {
    var inner := "span style=\"" + styles + "\"";
    StripTag(inner, rest);
    assert OPEN + styles + "\">" + rest == "<" + inner + ">" + rest;
  }

  lemma StripMarkup(codes: seq<string>, open: bool, rest: string)
    ensures StripTags(Markup(codes, open).0 + rest, false) == StripTags(rest, false)
  {
    hide Join, Styles, StripTags, NoMarkup, IsReset;
    MarkupIsPlain(codes);
    var styles := Join(Styles(codes));
    var opening := if Styles(codes) != [] then OPEN + styles + "\">" else "";
    var closes := open && ((exists code :: code in codes && IsReset(code)) || Styles(codes) != []);
    var closing := if closes then CLOSE else "";
    assert Markup(codes, open).0 + rest == closing + (opening + rest);
    StripClose(opening + rest);
    StripOpen(styles, rest);
    assert "" + (opening + rest) == opening + rest && "" + rest == rest;
  }

  lemma {:induction false} StripRendered(s: string, open: bool)
    requires '<' !in s
    ensures StripTags(Render(s, open), false) == RemoveSequences(s)
    decreases |s|
  {
    if s == [] {
      StripTag("/span", "");
      assert CLOSE == "<" + "/span" + ">" + "";
    } else {
      match Sequence(s)
      case Some(n) =>
        var (out, open') := Markup(SplitCodes(Codes(s)), open);
        StripMarkup(SplitCodes(Codes(s)), open, Render(s[n..], open'));
        StripRendered(s[n..], open');
      case None =>
        StripRendered(s[1..], open);
        assert ([s[0]] + Render(s[1..], open))[1..] == Render(s[1..], open);
    }
  }

  // ----- Sequences survive escaping -----

  lemma EscapedHead(s: string)
    requires s != []
    ensures Escaped(s) != [] && Escaped(s)[0] == EscapeChar(s[0])[0]
    ensures (Escaped(s)[0] == ESC <==> s[0] == ESC) && (Escaped(s)[0] == '[' <==> s[0] == '[')
    ensures EscapeChar(s[0]) == [s[0]] ==> Escaped(s)[1..] == Escaped(s[1..])
  {
  }

  lemma {:induction false} EscapedAppend(a: string, b: string)
    ensures Escaped(a + b) == Escaped(a) + Escaped(b)
  {
    if a == [] {
      assert a + b == b;
    } else {
      assert (a + b)[1..] == a[1..] + b;
      EscapedAppend(a[1..], b);
    }
  }

  lemma {:induction false} EscapedUntouched(a: string)
    requires forall c :: c in a ==> EscapeChar(c) == [c]
    ensures Escaped(a) == a
  {
    if a != [] {
      EscapedUntouched(a[1..]);
    }
  }

  ghost predicate AllCodes(a: string) {
    forall c :: c in a ==> IsCodeChar(c)
  }

  ghost predicate NoCodeFirst(b: string) {
    b == [] || !IsCodeChar(b[0])
  }

  lemma {:induction false} CodeLengthMeaning(s: string)
    ensures AllCodes(s[..CodeLength(s)]) && NoCodeFirst(s[CodeLength(s)..])
  {
    if s != [] && IsCodeChar(s[0]) {
      CodeLengthMeaning(s[1..]);
      var k := CodeLength(s[1..]);
      assert s[..k + 1] == [s[0]] + s[1..][..k] && s[k + 1..] == s[1..][k..];
    }
  }

  lemma {:induction false} CodeLengthOf(a: string, b: string)
    requires AllCodes(a) && NoCodeFirst(b)
    ensures CodeLength(a + b) == |a|
  {
    if a == [] {
      assert a + b == b;
    } else {
      assert (a + b)[1..] == a[1..] + b;
      CodeLengthOf(a[1..], b);
    }
  }

  const INTRO: string := [ESC, '[']

  lemma SequenceOf(a: string, b: string)
    requires AllCodes(a) && NoCodeFirst(b)
    ensures Sequence(INTRO + a + b) == if b != [] && b[0] == 'm' then Some(|a| + 3) else None
  {
    var s := INTRO + a + b;
    assert s[2..] == a + b;
    CodeLengthOf(a, b);
    assert b != [] ==> s[2 + |a|] == b[0];
  }

  /** The text after an introducer, cut where its codes end; escaping changes only what follows. */
  lemma SequenceTail(s: string) returns (a: string, b: string)
    requires |s| >= 2 && s[0] == ESC && s[1] == '['
    ensures s == INTRO + a + b && AllCodes(a) && NoCodeFirst(b)
    ensures Escaped(s) == INTRO + a + Escaped(b) && NoCodeFirst(Escaped(b))
    ensures b != [] ==> Escaped(b) != [] && (Escaped(b)[0] == 'm' <==> b[0] == 'm')
    ensures b != [] && b[0] == 'm' ==> Escaped(b)[1..] == Escaped(b[1..])
  {
    hide Escaped, CodeLength;
    var k := CodeLength(s[2..]);
    CodeLengthMeaning(s[2..]);
    a, b := s[2..][..k], s[2..][k..];
    assert s == INTRO + a + b;
    EscapedAppend(INTRO + a, b);
    EscapedUntouched(INTRO + a);
    NothingEscaped();
    if b != [] {
      EscapedHead(b);
    }
  }

  lemma PlainEscape()
    ensures EscapeChar(ESC) == [ESC]
  {
  }

  lemma NothingEscaped()
    ensures Escaped("") == ""
  {
  }

  lemma NoIntroduction(s: string)
    requires |s| < 2 || s[0] != ESC || s[1] != '['
    ensures Sequence(s) == None && Sequence(Escaped(s)) == None
  {
    hide Escaped, CodeLength, EscapeChar;
    NothingEscaped();
    PlainEscape();
    if s != [] {
      EscapedHead(s);
      if s[0] == ESC {
        var e := Escaped(s);
        assert e[1..] == Escaped(s[1..]);
        if |s| == 1 {
          assert s[1..] == "" && |e| == 1;
        } else {
          EscapedHead(s[1..]);
          assert e[1..][0] == e[1];
        }
      }
    }
  }

  lemma AfterIntroduction(s: string)
    requires |s| >= 2 && s[0] == ESC && s[1] == '['
    ensures Sequence(Escaped(s)) == Sequence(s)
    ensures Sequence(s).Some? ==>
              var n := Sequence(s).value;
              Escaped(s)[..n] == s[..n] && Escaped(s)[n..] == Escaped(s[n..])
  {
    hide Sequence, Escaped, AllCodes;
    var a, b := SequenceTail(s);
    SequenceOf(a, b);
    SequenceOf(a, Escaped(b));
    if b == [] {
      NothingEscaped();
    } else if b[0] == 'm' {
      var n := |a| + 3;
      assert s[..n] == INTRO + a + "m" && Escaped(s)[..n] == INTRO + a + "m";
      assert s[n..] == b[1..] && Escaped(s)[n..] == Escaped(b)[1..];
    }
  }

  /** A sequence starts in the escaped text exactly where it started in the text, and is the same. */
  lemma SequenceEscaped(s: string)
    ensures Sequence(Escaped(s)) == Sequence(s)
    ensures Sequence(s).Some? ==>
              var n := Sequence(s).value;
              Escaped(s)[..n] == s[..n] && Escaped(s)[n..] == Escaped(s[n..])
  {
    hide Sequence, Escaped;
    if |s| >= 2 && s[0] == ESC && s[1] == '[' {
      AfterIntroduction(s);
    } else {
      NoIntroduction(s);
    }
  }

  lemma {:induction false} RemovePlain(plain: string, rest: string)
    requires ESC !in plain
    ensures RemoveSequences(plain + rest) == plain + RemoveSequences(rest)
    decreases |plain|
  {
    if plain == [] {
      assert plain + rest == rest;
    } else {
      assert (plain + rest)[1..] == plain[1..] + rest;
      RemovePlain(plain[1..], rest);
    }
  }

  lemma {:induction false} EscapeCommutes(s: string)
    ensures RemoveSequences(Escaped(s)) == Escaped(RemoveSequences(s))
    decreases |s|
  {
    hide Sequence;
    if s != [] {
      SequenceEscaped(s);
      match Sequence(s)
      case Some(n) => EscapeCommutes(s[n..]);
      case None =>
        EscapeCommutes(s[1..]);
        if s[0] == ESC {
          EscapedHead(s);
        } else {
          RemovePlain(EscapeChar(s[0]), Escaped(s[1..]));
        }
    }
  }

  /** Taking the tags out of a rendered line leaves the escaped text without its colour sequences. */
  lemma RenderedText(text: string)
    ensures StripTags(AnsiToHtml(text), false) == EscapeHtml(RemoveSequences(text))
  {
    EscapeIsOnePass(text);
    EscapedIsPlain(text);
    StripRendered(EscapeHtml(text), false);
    EscapeCommutes(text);
    EscapeIsOnePass(RemoveSequences(text));
  }

  // ----- Balanced spans -----

  /** The text up to the first double quote. */
  function Quoted(s: string): (n: nat)
    ensures n <= |s|
  {
    if s == [] || s[0] == '"' then 0 else 1 + Quoted(s[1..])
  }

  /** Plain text and spans that are opened, closed and never nested; `open` tells whether one is open. */
  ghost predicate Balanced(s: string, open: bool)
    decreases |s|
  {
    if s == [] then !open
    else if s[0] != '<' then s[0] != '>' && s[0] != '"' && Balanced(s[1..], open)
    else if CLOSE <= s then open && Balanced(s[|CLOSE|..], false)
    else
      && OPEN <= s && !open
      && var attribute := s[|OPEN|..];
         var k := Quoted(attribute);
         k + 1 < |attribute| && attribute[k + 1] == '>' && Balanced(attribute[k + 2..], true)
  }

  lemma BalancedClose(rest: string)
    requires Balanced(rest, false)
    ensures Balanced(CLOSE + rest, true)
  {
    assert (CLOSE + rest)[|CLOSE|..] == rest;
  }

  lemma {:induction false} QuotedPlain(styles: string, rest: string)
    requires '"' !in styles
    ensures Quoted(styles + "\"" + rest) == |styles|
  {
    if styles == [] {
      assert styles + "\"" + rest == "\"" + rest;
    } else {
      assert (styles + "\"" + rest)[1..] == styles[1..] + "\"" + rest;
      QuotedPlain(styles[1..], rest);
    }
  }

  lemma BalancedOpen(styles: string, rest: string)
    requires NoMarkup(styles) && Balanced(rest, true)
    ensures Balanced(OPEN + styles + "\">" + rest, false)
  {
    hide Quoted;
    var s := OPEN + styles + "\">" + rest;
    var attribute := s[|OPEN|..];
    assert attribute == styles + "\"" + (">" + rest);
    QuotedPlain(styles, ">" + rest);
    assert s[0] == '<' && s[1] == 's' && CLOSE[1] == '/';
    assert s[..|OPEN|] == OPEN;
    assert Quoted(attribute) == |styles| && attribute[|styles| + 1] == '>';
    assert attribute[|styles| + 2..] == rest;
  }

  lemma BalancedMarkup(codes: seq<string>, open: bool, rest: string)
    requires Balanced(rest, Markup(codes, open).1)
    ensures Balanced(Markup(codes, open).0 + rest, open)
  {
    hide Join, Styles, NoMarkup, IsReset, Balanced;
    MarkupIsPlain(codes);
    var styles := Join(Styles(codes));
    var opening := if Styles(codes) != [] then OPEN + styles + "\">" else "";
    var closes := open && ((exists code :: code in codes && IsReset(code)) || Styles(codes) != []);
    var closing := if closes then CLOSE else "";
    assert Markup(codes, open).0 + rest == closing + (opening + rest);
    assert "" + rest == rest && "" + (opening + rest) == opening + rest;
    if opening != "" {
      BalancedOpen(styles, rest);
    }
    if closing != "" {
      BalancedClose(opening + rest);
    }
  }

  /** Every rendered line is balanced, with spans nested at most one deep. */
  lemma {:induction false} RenderBalanced(s: string, open: bool)
    requires NoMarkup(s)
    ensures Balanced(Render(s, open), open)
    decreases |s|
  {
    if s == [] {
      assert CLOSE + "" == CLOSE;
      BalancedClose("");
    } else {
      match Sequence(s)
      case Some(n) =>
        var (out, open') := Markup(SplitCodes(Codes(s)), open);
        RenderBalanced(s[n..], open');
        BalancedMarkup(SplitCodes(Codes(s)), open, Render(s[n..], open'));
      case None =>
        RenderBalanced(s[1..], open);
        assert ([s[0]] + Render(s[1..], open))[1..] == Render(s[1..], open);
    }
  }

  lemma LineBalanced(text: string)
    ensures Balanced(AnsiToHtml(text), false)
  {
    EscapeIsOnePass(text);
    EscapedIsPlain(text);
    RenderBalanced(EscapeHtml(text), false);
  }
}
