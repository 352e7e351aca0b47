/** The text `dot_string` puts into the Graphviz attributes of each node
    and edge (src/graph.rs:222-286): the edge label naming the ports, the
    node shape, and the HTML-like node label with its characters escaped. */
module Dot {
  import opened Wrappers
  import Text
  import Graph

  // ---------------------------------------------------------------------
  // Edge labels (graph.rs:227-235)

  const OUT_PREFIX: string := "label = \"out "
  const IN_PREFIX: string := "label = \"in "
  const ARROW: string := " -> in "

  function EdgeLabel(srcPort: Option<nat>, dstPort: Option<nat>): string {
    match (srcPort, dstPort)
    case (Some(sp), Some(dp)) => OUT_PREFIX + Text.NatToString(sp) + ARROW + Text.NatToString(dp) + "\""
    case (Some(sp), None) => OUT_PREFIX + Text.NatToString(sp) + "\""
    case (None, Some(dp)) => IN_PREFIX + Text.NatToString(dp) + "\""
    case (None, None) => ""
  }

  /** Length of the run of decimal digits that starts `s`. */
  function DigitRun(s: string): (n: nat)
    ensures n <= |s|
    ensures forall i :: 0 <= i < n ==> Text.IsDigit(s[i])
    ensures n < |s| ==> !Text.IsDigit(s[n])
  {
    if s == [] || !Text.IsDigit(s[0]) then 0 else 1 + DigitRun(s[1..])
  }

  lemma {:induction false} DigitRunOf(a: string, t: string)
    requires forall i :: 0 <= i < |a| ==> Text.IsDigit(a[i])
    requires t == [] || !Text.IsDigit(t[0])
    ensures DigitRun(a + t) == |a|
    decreases |a|
  {
    if a == [] {
      assert a + t == t;
    } else {
      assert (a + t)[1..] == a[1..] + t;
      DigitRunOf(a[1..], t);
    }
  }

  /** The number that starts `s` and what follows it. */
  function ReadNumber(s: string): (nat, string) {
    var d := DigitRun(s);
    (Text.ParseDecimal(s[..d]), s[d..])
  }

  /** Reads the ports back out of an edge label: the inverse of `EdgeLabel`. */
  function ParseEdgeLabel(s: string): (Option<nat>, Option<nat>) {
    if Text.StartsWith(s, OUT_PREFIX) then
      var (sp, rest) := ReadNumber(s[|OUT_PREFIX|..]);
      if Text.StartsWith(rest, ARROW) then (Some(sp), Some(ReadNumber(rest[|ARROW|..]).0))
      else (Some(sp), None)
    else if Text.StartsWith(s, IN_PREFIX) then
      (None, Some(ReadNumber(s[|IN_PREFIX|..]).0))
    else (None, None)
  }

  lemma ReadNumberOf(n: nat, t: string)
    requires t == [] || !Text.IsDigit(t[0])
    ensures ReadNumber(Text.NatToString(n) + t) == (n, t)
  {
    var a := Text.NatToString(n);
    var d := DigitRun(a + t);
    DigitRunOf(a, t);
    assert (a + t)[..d] == a;
    assert (a + t)[d..] == t;
    Text.ParseNatToString(n);
  }

  /** The label determines the ports it was made from. */
  lemma EdgeLabelRoundTrip(srcPort: Option<nat>, dstPort: Option<nat>)
    ensures ParseEdgeLabel(EdgeLabel(srcPort, dstPort)) == (srcPort, dstPort)
  {
    match (srcPort, dstPort)
    case (Some(sp), Some(dp)) => BothPortsRoundTrip(sp, dp);
    case (Some(sp), None) => SourcePortRoundTrip(sp);
    case (None, Some(dp)) => DestPortRoundTrip(dp);
    case (None, None) =>
  }

  /** An `out` label reads back its source port, then looks for the arrow. */
  lemma OutLabelParse(sp: nat, rest: string)
    requires rest == [] || !Text.IsDigit(rest[0])
    ensures ParseEdgeLabel(OUT_PREFIX + Text.NatToString(sp) + rest)
         == if Text.StartsWith(rest, ARROW) then (Some(sp), Some(ReadNumber(rest[|ARROW|..]).0))
            else (Some(sp), None)
  {
    var s := OUT_PREFIX + Text.NatToString(sp) + rest;
    assert s[..|OUT_PREFIX|] == OUT_PREFIX;
    assert s[|OUT_PREFIX|..] == Text.NatToString(sp) + rest;
    ReadNumberOf(sp, rest);
  }

  lemma ArrowSplit(t: string)
    ensures Text.StartsWith(ARROW + t, ARROW)
    ensures (ARROW + t)[|ARROW|..] == t
    ensures !Text.IsDigit((ARROW + t)[0])
  {
    assert (ARROW + t)[..|ARROW|] == ARROW;
  }

  lemma BothPortsRoundTrip(sp: nat, dp: nat)
    ensures ParseEdgeLabel(EdgeLabel(Some(sp), Some(dp))) == (Some(sp), Some(dp))
  {
    var n := Text.NatToString(dp) + "\"";
    ArrowSplit(n);
    assert EdgeLabel(Some(sp), Some(dp)) == OUT_PREFIX + Text.NatToString(sp) + (ARROW + n);
    OutLabelParse(sp, ARROW + n);
    ReadNumberOf(dp, "\"");
  }

  lemma SourcePortRoundTrip(sp: nat)
    ensures ParseEdgeLabel(EdgeLabel(Some(sp), None)) == (Some(sp), None)
  {
    OutLabelParse(sp, "\"");
  }

  lemma DestPortRoundTrip(dp: nat)
    ensures ParseEdgeLabel(EdgeLabel(None, Some(dp))) == (None, Some(dp))
  {
    var s := EdgeLabel(None, Some(dp));
    assert s == IN_PREFIX + (Text.NatToString(dp) + "\"");
    assert s[9] == 'i' != OUT_PREFIX[9];
    assert s[..|IN_PREFIX|] == IN_PREFIX;
    assert s[|IN_PREFIX|..] == Text.NatToString(dp) + "\"";
    ReadNumberOf(dp, "\"");
  }

  lemma EdgeLabelInjective(sp1: Option<nat>, dp1: Option<nat>, sp2: Option<nat>, dp2: Option<nat>)
    ensures EdgeLabel(sp1, dp1) == EdgeLabel(sp2, dp2) <==> sp1 == sp2 && dp1 == dp2
  {
    EdgeLabelRoundTrip(sp1, dp1);
    EdgeLabelRoundTrip(sp2, dp2);
  }

  // ---------------------------------------------------------------------
  // Node labels (graph.rs:237-282)

  function Shape(kind: Graph.NodeKind): string {
    match kind
    case GlobalIn => "shape = invhouse"
    case GlobalOut => "shape = house"
    case UnitNode => "shape = plaintext, margin = 0"
  }

  /** The label chain of graph.rs:247-253: HTML-escape `&`, `<`, `>` (the
      ampersand first), then spaces become `&nbsp;` and newlines `<BR/>`. */
  function Escape(text: string): (r: string)
    ensures ' ' !in r && '\n' !in r
  {
    var htmlSafe := Text.ReplaceChar(Text.ReplaceChar(Text.ReplaceChar(text, '&', "&amp;"), '<', "&lt;"), '>', "&gt;");
    var htmlNbsp := Text.ReplaceChar(htmlSafe, ' ', "&nbsp;");
    Text.ReplaceChar(htmlNbsp, '\n', "<BR/>")
  }

  /** What one character of a label becomes. */
  function EscapeChar(c: char): string {
    match c
    case '&' => "&amp;"
    case '<' => "&lt;"
    case '>' => "&gt;"
    case ' ' => "&nbsp;"
    case '\n' => "<BR/>"
    case _ => [c]
  }

  function EscapeEach(s: string): string {
    if s == [] then [] else EscapeChar(s[0]) + EscapeEach(s[1..])
  }

  lemma {:induction false} ReplaceCharAbsent(s: string, c: char, rep: string)
    requires c !in s
    ensures Text.ReplaceChar(s, c, rep) == s
    decreases |s|
  {
    if s != [] {
      assert s == [s[0]] + s[1..];
      ReplaceCharAbsent(s[1..], c, rep);
    }
  }

  lemma EscapeConcat(a: string, b: string)
    ensures Escape(a + b) == Escape(a) + Escape(b)
  {
    var s1a, s1b := Text.ReplaceChar(a, '&', "&amp;"), Text.ReplaceChar(b, '&', "&amp;");
    Text.ReplaceCharConcat(a, b, '&', "&amp;");
    var s2a, s2b := Text.ReplaceChar(s1a, '<', "&lt;"), Text.ReplaceChar(s1b, '<', "&lt;");
    Text.ReplaceCharConcat(s1a, s1b, '<', "&lt;");
    var s3a, s3b := Text.ReplaceChar(s2a, '>', "&gt;"), Text.ReplaceChar(s2b, '>', "&gt;");
    Text.ReplaceCharConcat(s2a, s2b, '>', "&gt;");
    var s4a, s4b := Text.ReplaceChar(s3a, ' ', "&nbsp;"), Text.ReplaceChar(s3b, ' ', "&nbsp;");
    Text.ReplaceCharConcat(s3a, s3b, ' ', "&nbsp;");
    Text.ReplaceCharConcat(s4a, s4b, '\n', "<BR/>");
  }

  lemma ReplaceOne(c: char, d: char, rep: string)
    ensures Text.ReplaceChar([c], d, rep) == if c == d then rep else [c]
  {
    assert [c][1..] == [];
  }

  /** The last four steps of the chain leave `e` alone when it holds none
      of the characters they replace. */
  lemma Untouched(e: string, from: nat)
    requires 1 <= from <= 5
    requires from <= 1 ==> '<' !in e
    requires from <= 2 ==> '>' !in e
    requires from <= 3 ==> ' ' !in e
    requires from <= 4 ==> '\n' !in e
    ensures from <= 1 ==> Text.ReplaceChar(e, '<', "&lt;") == e
    ensures from <= 2 ==> Text.ReplaceChar(e, '>', "&gt;") == e
    ensures from <= 3 ==> Text.ReplaceChar(e, ' ', "&nbsp;") == e
    ensures from <= 4 ==> Text.ReplaceChar(e, '\n', "<BR/>") == e
  {
    if from <= 1 { ReplaceCharAbsent(e, '<', "&lt;"); }
    if from <= 2 { ReplaceCharAbsent(e, '>', "&gt;"); }
    if from <= 3 { ReplaceCharAbsent(e, ' ', "&nbsp;"); }
    if from <= 4 { ReplaceCharAbsent(e, '\n', "<BR/>"); }
  }

  lemma EscapeAmp()
    ensures Escape("&") == "&amp;"
  {
    ReplaceOne('&', '&', "&amp;");
    Untouched("&amp;", 1);
  }

  lemma EscapeLt()
    ensures Escape("<") == "&lt;"
  {
    ReplaceOne('<', '&', "&amp;");
    ReplaceOne('<', '<', "&lt;");
    Untouched("&lt;", 2);
  }

  lemma EscapeGt()
    ensures Escape(">") == "&gt;"
  {
    ReplaceOne('>', '&', "&amp;");
    ReplaceOne('>', '<', "&lt;");
    ReplaceOne('>', '>', "&gt;");
    Untouched("&gt;", 3);
  }

  lemma EscapeSpace()
    ensures Escape(" ") == "&nbsp;"
  {
    ReplaceOne(' ', '&', "&amp;");
    ReplaceOne(' ', '<', "&lt;");
    ReplaceOne(' ', '>', "&gt;");
    ReplaceOne(' ', ' ', "&nbsp;");
    Untouched("&nbsp;", 4);
  }

  lemma EscapeNewline()
    ensures Escape("\n") == "<BR/>"
  {
    ReplaceOne('\n', '&', "&amp;");
    ReplaceOne('\n', '<', "&lt;");
    ReplaceOne('\n', '>', "&gt;");
    ReplaceOne('\n', ' ', "&nbsp;");
    ReplaceOne('\n', '\n', "<BR/>");
  }

  lemma EscapePlain(c: char)
    requires c !in {'&', '<', '>', ' ', '\n'}
    ensures Escape([c]) == [c]
  {
    ReplaceCharAbsent([c], '&', "&amp;");
    Untouched([c], 1);
  }

  lemma EscapeSingle(c: char)
    ensures Escape([c]) == EscapeChar(c)
  {
    if c == '&' { EscapeAmp(); }
    else if c == '<' { EscapeLt(); }
    else if c == '>' { EscapeGt(); }
    else if c == ' ' { EscapeSpace(); }
    else if c == '\n' { EscapeNewline(); }
    else { EscapePlain(c); }
  }

  /** The chain of replacements acts character by character: because `&`
      is replaced first, the entities introduced later are not escaped
      again. */
  lemma {:induction false} EscapeIsPerChar(s: string)
    ensures Escape(s) == EscapeEach(s)
    decreases |s|
  {
    if s == [] {
      assert Escape(s) == [];
    } else {
      assert s == [s[0]] + s[1..];
      EscapeConcat([s[0]], s[1..]);
      EscapeSingle(s[0]);
      EscapeIsPerChar(s[1..]);
    }
  }

  /** Decodes the entities `Escape` produces. */
  function Unescape(t: string): string
    decreases |t|
  {
    if t == [] then []
    else if Text.StartsWith(t, "&amp;") then "&" + Unescape(t[5..])
    else if Text.StartsWith(t, "&lt;") then "<" + Unescape(t[4..])
    else if Text.StartsWith(t, "&gt;") then ">" + Unescape(t[4..])
    else if Text.StartsWith(t, "&nbsp;") then " " + Unescape(t[6..])
    else if Text.StartsWith(t, "<BR/>") then "\n" + Unescape(t[5..])
    else [t[0]] + Unescape(t[1..])
  }

  lemma StartsWithFirst(t: string, p: string)
    requires |p| > 0 && Text.StartsWith(t, p)
    ensures t[0] == p[0]
  {
    assert t[..|p|][0] == t[0];
  }

  lemma PrefixOf(e: string, rest: string)
    ensures Text.StartsWith(e + rest, e) && (e + rest)[|e|..] == rest
  {
    assert (e + rest)[..|e|] == e;
  }

  lemma UnescapeStep(c: char, rest: string)
    ensures Unescape(EscapeChar(c) + rest) == [c] + Unescape(rest)
  {
    if c in {'&', '<', '>'} {
      UnescapeEntity(c, rest);
    } else if c == ' ' {
      UnescapeSpace(rest);
    } else if c == '\n' {
      UnescapeBreak(rest);
    } else {
      UnescapePlain(c, rest);
    }
  }

  lemma UnescapeEntity(c: char, rest: string)
    requires c in {'&', '<', '>'}
    ensures Unescape(EscapeChar(c) + rest) == [c] + Unescape(rest)
  {
    var t := EscapeChar(c) + rest;
    PrefixOf(EscapeChar(c), rest);
    if c == '<' {
      assert t[1] == 'l';
      assert !Text.StartsWith(t, "&amp;") by { assert "&amp;"[1] == 'a'; }
    } else if c == '>' {
      assert t[1] == 'g';
      assert !Text.StartsWith(t, "&amp;") by { assert "&amp;"[1] == 'a'; }
      assert !Text.StartsWith(t, "&lt;") by { assert "&lt;"[1] == 'l'; }
    }
  }

  lemma UnescapeSpace(rest: string)
    ensures Unescape(EscapeChar(' ') + rest) == [' '] + Unescape(rest)
  {
    var t := "&nbsp;" + rest;
    PrefixOf("&nbsp;", rest);
    assert t[1] == 'n';
    assert !Text.StartsWith(t, "&amp;") by { assert "&amp;"[1] == 'a'; }
    assert !Text.StartsWith(t, "&lt;") by { assert "&lt;"[1] == 'l'; }
    assert !Text.StartsWith(t, "&gt;") by { assert "&gt;"[1] == 'g'; }
  }

  lemma UnescapeBreak(rest: string)
    ensures Unescape(EscapeChar('\n') + rest) == ['\n'] + Unescape(rest)
  {
    var t := "<BR/>" + rest;
    PrefixOf("<BR/>", rest);
    assert t[0] == '<';
  }

  lemma UnescapePlain(c: char, rest: string)
    requires c !in {'&', '<', '>', ' ', '\n'}
    ensures Unescape(EscapeChar(c) + rest) == [c] + Unescape(rest)
  {
    var t := [c] + rest;
    assert EscapeChar(c) == [c];
    assert t[0] == c && t[1..] == rest;
    if Text.StartsWith(t, "&amp;") { StartsWithFirst(t, "&amp;"); }
    if Text.StartsWith(t, "&lt;") { StartsWithFirst(t, "&lt;"); }
    if Text.StartsWith(t, "&gt;") { StartsWithFirst(t, "&gt;"); }
    if Text.StartsWith(t, "&nbsp;") { StartsWithFirst(t, "&nbsp;"); }
    if Text.StartsWith(t, "<BR/>") { StartsWithFirst(t, "<BR/>"); }
  }

  /** Escaping loses nothing: the label can be read back from the markup. */
  lemma {:induction false} EscapeRoundTrip(s: string)
    ensures Unescape(Escape(s)) == s
    decreases |s|
  {
    EscapeIsPerChar(s);
    if s != [] {
      UnescapeStep(s[0], EscapeEach(s[1..]));
      EscapeRoundTrip(s[1..]);
      EscapeIsPerChar(s[1..]);
      assert s == [s[0]] + s[1..];
    }
  }

  /** Markup in which every `&` starts one of the entities `&amp;`, `&lt;`,
      `&gt;`, `&nbsp;`, every `<` starts `<BR/>`, and no `>`, space or
      newline stands outside them. */
  predicate WellEscaped(t: string)
    decreases |t|
  {
    || t == []
    || (Text.StartsWith(t, "&amp;") && WellEscaped(t[5..]))
    || (Text.StartsWith(t, "&lt;") && WellEscaped(t[4..]))
    || (Text.StartsWith(t, "&gt;") && WellEscaped(t[4..]))
    || (Text.StartsWith(t, "&nbsp;") && WellEscaped(t[6..]))
    || (Text.StartsWith(t, "<BR/>") && WellEscaped(t[5..]))
    || (t[0] !in {'&', '<', '>', ' ', '\n'} && WellEscaped(t[1..]))
  }

  lemma {:induction false} EscapeWellEscaped(s: string)
    ensures WellEscaped(Escape(s))
    decreases |s|
  {
    EscapeIsPerChar(s);
    if s != [] {
      EscapeWellEscaped(s[1..]);
      EscapeIsPerChar(s[1..]);
      var rest := EscapeEach(s[1..]);
      PrefixOf(EscapeChar(s[0]), rest);
    }
  }

  /** The extra row's text, escaped like the label but without the newline
      step (graph.rs:255-272). */
  function ExtraText(node: Graph.DspNode): string {
    match node.kind
    case UnitNode => if node.unitId.Some? then " [id: NodeId(" + Text.NatToString(node.unitId.value) + ")]" else ""
    case _ => if node.port.Some? then " [ch: " + Text.NatToString(node.port.value) + "]" else ""
  }

  function EscapeExtra(extra: string): string {
    Text.ReplaceChar(Text.ReplaceChar(Text.ReplaceChar(Text.ReplaceChar(extra, '&', "&amp;"), '<', "&lt;"), '>', "&gt;"), ' ', "&nbsp;")
  }

  function ExtraRow(node: Graph.DspNode): string {
    var extra := ExtraText(node);
    if extra == [] then ""
    else "<TR><TD><FONT FACE=\"monospace\">" + EscapeExtra(extra) + "</FONT></TD></TR>"
  }

  /** The node attribute string of graph.rs:279-282. */
  function NodeAttributes(node: Graph.DspNode): string {
    "label = <<TABLE BORDER=\"1\" CELLBORDER=\"1\" CELLSPACING=\"0\" CELLPADDING=\"2\"><TR><TD><FONT FACE=\"monospace\" POINT-SIZE=\"10\">"
    + Escape(node.text) + "</FONT></TD></TR>" + ExtraRow(node) + "</TABLE>>, " + Shape(node.kind)
  }

  /** Without a newline the extra row's escaping is the label's. */
  lemma EscapeExtraAgrees(extra: string)
    requires '\n' !in extra
    ensures EscapeExtra(extra) == Escape(extra)
  {
    var s4 := EscapeExtra(extra);
    assert '\n' !in s4;
    ReplaceCharAbsent(s4, '\n', "<BR/>");
  }
}
