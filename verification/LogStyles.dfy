/**
 * Each character of a log line is shown in the right style: what a browser shows of the rendered line
 * is what a small terminal shows of the raw line.
 */
module LogStyles {
  import opened Options
  import opened LogViewer

  /** A character as shown, with the style attribute of the span around it. */
  type Shown = (char, Option<string>)

  // ----- The terminal -----

  function Color(value: string): Option<string> {
    Some("color:" + value)
  }

  /** The style one code asks for: bold, one of the sixteen colours, or nothing. */
  function Declaration(code: string): Option<string> {
    match code
    case "1" => Some("font-weight:bold")
    case "30" => Color("#000")
    case "31" => Color("#c00")
    case "32" => Color("#0a0")
    case "33" => Color("#a50")
    case "34" => Color("#00c")
    case "35" => Color("#c0c")
    case "36" => Color("#0cc")
    case "37" => Color("#ccc")
    case "90" => Color("#555")
    case "91" => Color("#f55")
    case "92" => Color("#5f5")
    case "93" => Color("#ff5")
    case "94" => Color("#55f")
    case "95" => Color("#f5f")
    case "96" => Color("#5ff")
    case "97" => Color("#fff")
    case _ => None
  }

  /** The declarations of the codes, in order, separated by semicolons. */
  function Declared(codes: seq<string>): string {
    if codes == [] then ""
    else
      var rest := Declared(codes[1..]);
      match Declaration(codes[0])
      case Some(d) => if rest == "" then d else d + ";" + rest
      case None => rest
  }

  /** Styles replace the current one; a reset alone clears it; other codes leave it. */
  function Meaning(codes: seq<string>, style: Option<string>): Option<string> {
    if Declared(codes) != "" then Some(Declared(codes))
    else if "0" in codes || "" in codes then None
    else style
  }

  /** The pieces between the semicolons. */
  function Pieces(s: string): (parts: seq<string>)
    ensures parts != []
  {
    if s == [] then [""]
    else if s[0] == ';' then [""] + Pieces(s[1..])
    else
      var rest := Pieces(s[1..]);
      [[s[0]] + rest[0]] + rest[1..]
  }

  /** A colour sequence: escape, bracket, digits and semicolons, `m`. */
  predicate IsSequence(s: string, n: nat) {
    && 3 <= n <= |s| && s[0] == '\U{1B}' && s[1] == '[' && s[n - 1] == 'm'
    && forall i :: 2 <= i < n - 1 ==> '0' <= s[i] <= '9' || s[i] == ';'
  }

  /** What a terminal shows of the rest of a line, in the style it has reached. */
  ghost function Terminal(s: string, style: Option<string>): seq<Shown>
    decreases |s|
  {
    if s == [] then []
    else if exists n: nat :: IsSequence(s, n) then
      var n: nat :| IsSequence(s, n);
      Terminal(s[n..], Meaning(Pieces(s[2..n - 1]), style))
    else [(s[0], style)] + Terminal(s[1..], style)
  }

  // ----- The browser -----

  /** What a browser shows of the rest of the markup, in the style of the span it is in. */
  ghost function Browser(html: string, style: Option<string>): seq<Shown>
    decreases |html|
  {
    if html == [] then []
    else if "</span>" <= html then Browser(html[7..], None)
    else if "<span style=\"" <= html then
      var attribute := html[13..];
      var k := Quoted(attribute);
      if k + 1 < |attribute| && attribute[k + 1] == '>' then Browser(attribute[k + 2..], Some(attribute[..k])) else []
    else if "&amp;" <= html then [('&', style)] + Browser(html[5..], style)
    else if "&lt;" <= html then [('<', style)] + Browser(html[4..], style)
    else if "&gt;" <= html then [('>', style)] + Browser(html[4..], style)
    else if "&quot;" <= html then [('"', style)] + Browser(html[6..], style)
    else [(html[0], style)] + Browser(html[1..], style)
  }

  // ----- The sequences are the same -----

  lemma SequenceIff(s: string, n: nat)
    ensures IsSequence(s, n) <==> Sequence(s) == Some(n)
  {
    if IsSequence(s, n) {
      var a, b := s[2..n - 1], s[n - 1..];
      assert s[2..] == a + b;
      forall c | c in a
        ensures IsCodeChar(c)
      {
        var i :| 0 <= i < |a| && a[i] == c;
        assert s[i + 2] == c;
      }
      CodeLengthOf(a, b);
    } else if |s| >= 2 {
      CodeLengthMeaning(s[2..]);
      hide CodeLength;
      if Sequence(s) == Some(n) {
        forall i | 2 <= i < n - 1
          ensures IsCodeChar(s[i])
        {
          assert s[i] == s[2..][..n - 3][i - 2];
        }
      }
    }
  }

  lemma {:induction false} PiecesAreCodes(s: string)
    ensures SplitCodes(s) == Pieces(s)
    decreases |s|
  {
    if s != [] {
      PiecesAreCodes(s[1..]);
    }
  }

  lemma TerminalSequence(s: string, n: nat, style: Option<string>)
    requires IsSequence(s, n) && forall m: nat :: IsSequence(s, m) ==> m == n
    ensures Terminal(s, style) == Terminal(s[n..], Meaning(Pieces(s[2..n - 1]), style))
  {
    assert s != [] && 3 <= n <= |s|;
    hide IsSequence, Meaning, Pieces;
  }

  lemma TerminalChar(s: string, style: Option<string>)
    requires s != [] && forall m: nat :: !IsSequence(s, m)
    ensures Terminal(s, style) == [(s[0], style)] + Terminal(s[1..], style)
  {
    hide IsSequence, Meaning, Pieces;
  }

  lemma TerminalStep(s: string, style: Option<string>)
    requires s != []
    ensures Terminal(s, style) ==
            match Sequence(s)
            case Some(n) => Terminal(s[n..], Meaning(SplitCodes(Codes(s)), style))
            case None => [(s[0], style)] + Terminal(s[1..], style)
  {
    hide Sequence, IsSequence, Meaning, SplitCodes, Pieces, Terminal;
    forall n: nat
      ensures IsSequence(s, n) <==> Sequence(s) == Some(n)
    {
      SequenceIff(s, n);
    }
    if Sequence(s).Some? {
      PiecesAreCodes(Codes(s));
      TerminalSequence(s, Sequence(s).value, style);
    } else {
      TerminalChar(s, style);
    }
  }

  // ----- The styles are the same -----

  lemma StyleIsDeclaration(code: string)
    ensures (if IsReset(code) then [] else StyleOf(code)) ==
            match Declaration(code) case Some(d) => [d] case None => []
  {
    if code == "1" {
      assert "1" !in COLORS;
    } else if code in COLORS {
      assert Declaration(code) == Color(COLORS[code]);
    }
  }

  lemma {:induction false} StylesFront(code: string, codes: seq<string>)
    ensures Styles([code] + codes) == (if IsReset(code) then [] else StyleOf(code)) + Styles(codes)
    decreases |codes|
  {
    hide StyleOf, IsReset;
    if codes == [] {
      assert [code] + codes == [] + [code];
      StylesSnoc([], code);
    } else {
      var n := |codes| - 1;
      StylesFront(code, codes[..n]);
      StylesSnoc([code] + codes[..n], codes[n]);
      StylesSnoc(codes[..n], codes[n]);
      assert codes == codes[..n] + [codes[n]];
      assert [code] + codes == ([code] + codes[..n]) + [codes[n]];
    }
  }

  lemma JoinFront(d: string, parts: seq<string>)
    ensures Join([d] + parts) == if parts == [] then d else d + ";" + Join(parts)
  {
    assert ([d] + parts)[1..] == parts;
  }

  lemma DeclarationIsText(code: string)
    ensures Declaration(code).Some? ==> Declaration(code).value != ""
  {
  }

  lemma {:induction false} StylesAreDeclared(codes: seq<string>)
    ensures Join(Styles(codes)) == Declared(codes) && (Styles(codes) == [] <==> Declared(codes) == "")
  {
    hide StyleOf, IsReset, Declaration, Styles, Join;
    if codes == [] {
      NoStyles();
    } else {
      assert codes == [codes[0]] + codes[1..];
      StylesFront(codes[0], codes[1..]);
      StyleIsDeclaration(codes[0]);
      StylesAreDeclared(codes[1..]);
      DeclarationIsText(codes[0]);
      match Declaration(codes[0])
      case Some(d) => JoinFront(d, Styles(codes[1..]));
      case None => assert [] + Styles(codes[1..]) == Styles(codes[1..]);
    }
  }

  lemma NoStyles()
    ensures Styles([]) == [] && Join([]) == ""
  {
  }

  // ----- Reading back the markup -----

  lemma BrowserClose(rest: string, style: Option<string>)
    ensures Browser(CLOSE + rest, style) == Browser(rest, None)
  {
    assert (CLOSE + rest)[7..] == rest;
  }

  lemma BrowserOpen(styles: string, rest: string, style: Option<string>)
    requires '"' !in styles
    ensures Browser(OPEN + styles + "\">" + rest, style) == Browser(rest, Some(styles))
  {
    hide Quoted;
    var s := OPEN + styles + "\">" + rest;
    var attribute := s[13..];
    assert attribute == styles + "\"" + (">" + rest);
    QuotedPlain(styles, ">" + rest);
    assert s[1] == 's' && CLOSE[1] == '/';
    assert "<span style=\"" <= s;
    assert attribute[..|styles|] == styles && attribute[|styles| + 1] == '>';
    assert attribute[|styles| + 2..] == rest;
  }

  lemma BrowserChar(c: char, rest: string, style: Option<string>)
    ensures Browser(EscapeChar(c) + rest, style) == [(c, style)] + Browser(rest, style)
  {
    var s := EscapeChar(c) + rest;
    assert EscapeChar(c) <= s && s[|EscapeChar(c)|..] == rest && s[0] == EscapeChar(c)[0];
    if c == '<' || c == '>' || c == '"' {
      assert s[1] == EscapeChar(c)[1];
    } else if c != '&' {
      assert s[1..] == rest;
    }
  }

  /** The markup of one sequence puts what follows in the style the terminal would reach. */
  lemma BrowserMarkup(codes: seq<string>, style: Option<string>, rest: string)
    ensures var (out, open) := Markup(codes, style.Some?);
            && open == Meaning(codes, style).Some?
            && Browser(out + rest, style) == Browser(rest, Meaning(codes, style))
  {
    hide Styles, Join, Browser, Declared, NoMarkup;
    StylesAreDeclared(codes);
    MarkupIsPlain(codes);
    NoQuote(Join(Styles(codes)));
    var opening := if Styles(codes) != [] then OPEN + Join(Styles(codes)) + "\">" else "";
    var closes := style.Some? && ((exists code :: code in codes && IsReset(code)) || Styles(codes) != []);
    var closing := if closes then CLOSE else "";
    assert Markup(codes, style.Some?).0 + rest == closing + (opening + rest);
    assert "" + rest == rest && "" + (opening + rest) == opening + rest;
    if closes {
      BrowserClose(opening + rest, style);
    }
    if Styles(codes) != [] {
      BrowserOpen(Join(Styles(codes)), rest, if closes then None else style);
    }
  }

  lemma NoQuote(s: string)
    requires NoMarkup(s)
    ensures '"' !in s
  {
  }

  // ----- Whole lines -----

  lemma {:induction false} RenderPlain(plain: string, rest: string, open: bool)
    requires ESC !in plain
    ensures Render(plain + rest, open) == plain + Render(rest, open)
    decreases |plain|
  {
    hide Markup;
    if plain == [] {
      assert plain + rest == rest;
    } else {
      assert (plain + rest)[1..] == plain[1..] + rest;
      RenderPlain(plain[1..], rest, open);
    }
  }

  /** A character outside any sequence is rendered as its escape. */
  lemma RenderChar(text: string, open: bool)
    requires text != [] && Sequence(text) == None
    ensures Render(Escaped(text), open) == EscapeChar(text[0]) + Render(Escaped(text[1..]), open)
  {
    hide Sequence, Markup;
    SequenceEscaped(text);
    if text[0] == ESC {
      EscapedHead(text);
      PlainEscape();
    } else {
      RenderPlain(EscapeChar(text[0]), Escaped(text[1..]), open);
    }
  }

  lemma RenderSequence(text: string, open: bool)
    requires text != [] && Sequence(text).Some?
    ensures var n := Sequence(text).value;
            var (out, open') := Markup(SplitCodes(Codes(text)), open);
            Render(Escaped(text), open) == out + Render(Escaped(text[n..]), open')
  {
    hide Sequence, Markup, SplitCodes;
    SequenceEscaped(text);
    EscapedHead(text);
    var n := Sequence(text).value;
    assert Escaped(text)[..n][2..n - 1] == Codes(Escaped(text)) && text[..n][2..n - 1] == Codes(text);
  }

  lemma {:induction false} ShownAlike(text: string, style: Option<string>)
    ensures Browser(Render(Escaped(text), style.Some?), style) == Terminal(text, style)
    decreases |text|
  {
    hide Sequence, Markup, SplitCodes, Meaning, Browser, Terminal, Escaped, Render;
    if text == [] {
      EndOfLine(style);
    } else {
      TerminalStep(text, style);
      match Sequence(text)
      case Some(n) =>
        var codes := SplitCodes(Codes(text));
        RenderSequence(text, style.Some?);
        BrowserMarkup(codes, style, Render(Escaped(text[n..]), Markup(codes, style.Some?).1));
        ShownAlike(text[n..], Meaning(codes, style));
      case None =>
        RenderChar(text, style.Some?);
        BrowserChar(text[0], Render(Escaped(text[1..]), style.Some?), style);
        ShownAlike(text[1..], style);
    }
  }

  lemma EndOfLine(style: Option<string>)
    ensures Browser(Render(Escaped(""), style.Some?), style) == Terminal("", style) == []
  {
    assert CLOSE + "" == CLOSE;
    BrowserClose("", style);
  }

  /**
   * For every line: the characters a browser shows, each in the style of its span, are the characters
   * the terminal shows, each in the style the sequences before it have reached.
   */
  lemma StyledAsTerminal(text: string)
    ensures Browser(AnsiToHtml(text), None) == Terminal(text, None)
  {
    EscapeIsOnePass(text);
    ShownAlike(text, None);
  }
}
