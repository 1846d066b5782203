/** Pure string helpers shared by the Mermaid diagram builders: node
    identifiers, label escaping, node shapes, edge arrows and the fenced
    block. Shapes, edge styles and severities are Go string types, so any
    string may be passed and an unknown one takes the default branch. */
module MermaidCommon {
  import opened StrUtil
  import opened Wrappers

  const BR: string := "<br/>"
  const Fence: string := "```mermaid\n"
  const FenceEnd: string := "\n```"

  // ---------------------------------------------------------------------------
  // Severity styles
  // ---------------------------------------------------------------------------

  const KnownSeverities: set<string> := {"critical", "warning", "healthy", "info"}

  /** Lookup in the fixed severity-to-style table; `None` for any other key. */
  function SeverityStyle(sev: string): (r: Option<string>)
    ensures r.Some? <==> sev in KnownSeverities
    ensures r.Some? ==> HasPrefix(r.value, "fill:#")
  {
    match sev
    case "critical" => Some("fill:#ffcccc,stroke:#cc0000,stroke-width:2px")
    case "warning" => Some("fill:#ffffcc,stroke:#cccc00,stroke-width:2px")
    case "healthy" => Some("fill:#ccffcc,stroke:#00cc00,stroke-width:2px")
    case "info" => Some("fill:#cce5ff,stroke:#4a90d9,stroke-width:2px")
    case _ => None
  }

  // ---------------------------------------------------------------------------
  // SafeID
  // ---------------------------------------------------------------------------

  /** The characters a Mermaid identifier may contain: [a-zA-Z0-9_]. */
  predicate IsIdChar(c: char) {
    IsAsciiLetter(c) || IsDigit(c) || c == '_'
  }

  /** Every character outside [a-zA-Z0-9_] replaced by '_'. */
  function Sanitize(s: string): (r: string)
    ensures |r| == |s|
    ensures forall i :: 0 <= i < |s| ==> r[i] == (if IsIdChar(s[i]) then s[i] else '_')
  {
    if s == [] then [] else [if IsIdChar(s[0]) then s[0] else '_'] + Sanitize(s[1..])
  }

  /** A safe node identifier: never empty, never starting with a digit, made
      only of identifier characters; each input character is kept when it is
      an identifier character and replaced by '_' otherwise, with one '_' in
      front when the first kept character is a digit. */
  function SafeID(s: string): (r: string)
    ensures |r| >= 1
    ensures !IsDigit(r[0])
    ensures forall i :: 0 <= i < |r| ==> IsIdChar(r[i])
    ensures s == [] ==> r == "_"
    ensures s != [] ==> |r| == |s| + (if IsDigit(s[0]) then 1 else 0)
    ensures s != [] ==> forall i :: 0 <= i < |s| ==>
      r[|r| - |s| + i] == (if IsIdChar(s[i]) then s[i] else '_')
    ensures |r| > |s| ==> r[0] == '_'
  {
    var id := Sanitize(s);
    if |id| == 0 then "_"
    else if IsDigit(id[0]) then "_" + id
    else id
  }

  /** A valid identifier that does not start with a digit is its own SafeID. */
  lemma SafeIDFixesIdentifiers(s: string)
    requires s != [] && !IsDigit(s[0])
    requires forall i :: 0 <= i < |s| ==> IsIdChar(s[i])
    ensures SafeID(s) == s
  {
    assert Sanitize(s) == s;
  }

  /** Applying SafeID twice gives the same identifier as applying it once. */
  lemma SafeIDIdempotent(s: string)
    ensures SafeID(SafeID(s)) == SafeID(s)
  {
    SafeIDFixesIdentifiers(SafeID(s));
  }

  /** SafeID is not injective: two distinct names share an identifier. */
  lemma SafeIDCollides()
    ensures SafeID("a-b") == SafeID("a.b") == "a_b"
  {
    assert Sanitize("a-b") == "a_b";
    assert Sanitize("a.b") == "a_b";
  }

  // ---------------------------------------------------------------------------
  // EscapeLabel
  // ---------------------------------------------------------------------------

  const QuotEntity: string := "#quot;"

  /** Number of double quotes in `s`. */
  function QuoteCount(s: string): nat {
    if s == [] then 0 else (if s[0] == '"' then 1 else 0) + QuoteCount(s[1..])
  }

  /** Every double quote replaced by `#quot;`: no quote survives, the text grows
      by five characters per quote, and a quote-free label is unchanged. */
  function EscapeLabel(s: string): (r: string)
    ensures '"' !in r
    ensures |r| == |s| + 5 * QuoteCount(s)
    ensures '"' !in s ==> r == s
  {
    if s == [] then []
    else if s[0] == '"' then QuotEntity + EscapeLabel(s[1..])
    else [s[0]] + EscapeLabel(s[1..])
  }

  /** Escaping is idempotent. */
  lemma EscapeLabelIdempotent(s: string)
    ensures EscapeLabel(EscapeLabel(s)) == EscapeLabel(s)
  {
  }

  // ---------------------------------------------------------------------------
  // Node shapes and edge arrows
  // ---------------------------------------------------------------------------

  const KnownShapes: set<string> := {"rect", "round", "stadium", "circle", "diamond", "hex", "trapalt", "cyl"}

  /** Opening and closing delimiters of a shape; any unknown shape is a rect. */
  function ShapeDelimiters(shape: string): (d: (string, string))
    ensures |d.0| >= 1 && |d.0| == |d.1|
    ensures shape !in KnownShapes ==> d == ("[", "]")
  {
    match shape
    case "round" => ("(", ")")
    case "stadium" => ("([", "])")
    case "circle" => ("((", "))")
    case "diamond" => ("{", "}")
    case "hex" => ("{{", "}}")
    case "trapalt" => ("[/", "/]")
    case "cyl" => ("[(", ")]")
    case _ => ("[", "]")
  }

  /** A node declaration: the id, then the label text inside the shape's
      delimiters; id and label can be read back from the declaration. */
  function NodeShape(id: string, text: string, shape: string): (r: string)
    ensures HasPrefix(r, id)
    ensures |r| == |id| + |text| + 2 * |ShapeDelimiters(shape).0|
    ensures r[|id| + |ShapeDelimiters(shape).0|..|r| - |ShapeDelimiters(shape).1|] == text
    ensures shape !in KnownShapes ==> r == id + "[" + text + "]"
  {
    var (open, close) := ShapeDelimiters(shape);
    var r := id + open + text + close;
    assert r[|id| + |open|..|r| - |close|] == text;
    r
  }

  /** The arrow of an edge style: dotted, thick, or solid for any other style. */
  function ArrowOf(style: string): (a: string)
    ensures style != "dotted" && style != "thick" ==> a == "-->"
  {
    match style
    case "dotted" => "-.->"
    case "thick" => "==>"
    case _ => "-->"
  }

  /** The arrow, followed by `|text|` exactly when the text is non-empty. */
  function EdgeArrow(style: string, text: string): (r: string)
    ensures HasPrefix(r, ArrowOf(style))
    ensures text == "" <==> r == ArrowOf(style)
    ensures text != "" ==> r[|ArrowOf(style)|..] == "|" + text + "|"
  {
    var a := ArrowOf(style);
    if text != "" then
      var r := a + "|" + text + "|";
      assert r[|a|..] == "|" + text + "|";
      r
    else a
  }

  // ---------------------------------------------------------------------------
  // Fenced block
  // ---------------------------------------------------------------------------

  /** Diagram text inside a ```mermaid fence; the code is recovered by
      dropping the fence and the closing line. */
  function WrapBlock(code: string): (r: string)
    ensures HasPrefix(r, Fence) && HasSuffix(r, FenceEnd)
    ensures |r| == |Fence| + |code| + |FenceEnd|
    ensures r[|Fence|..|r| - |FenceEnd|] == code
  {
    var r := Fence + code + FenceEnd;
    assert r[|Fence|..|r| - |FenceEnd|] == code;
    assert r[|r| - |FenceEnd|..] == FenceEnd;
    r
  }

  /** Two different diagrams never wrap to the same block. */
  lemma WrapBlockInjective(a: string, b: string)
    requires WrapBlock(a) == WrapBlock(b)
    ensures a == b
  {
  }

  // ---------------------------------------------------------------------------
  // Line lists shared by the builders
  // ---------------------------------------------------------------------------

  const Indent: string := "    "

  /** Each line with four more spaces in front. */
  function Indented(lines: seq<string>): (r: seq<string>)
    ensures |r| == |lines|
    ensures forall i :: 0 <= i < |lines| ==> r[i] == Indent + lines[i]
  {
    if lines == [] then [] else [Indent + lines[0]] + Indented(lines[1..])
  }

  lemma {:induction false} IndentedAppend(a: seq<string>, b: seq<string>)
    ensures Indented(a + b) == Indented(a) + Indented(b)
  {
    assert |Indented(a + b)| == |Indented(a) + Indented(b)|;
    forall i | 0 <= i < |a + b| ensures Indented(a + b)[i] == (Indented(a) + Indented(b))[i] {
    }
  }

  /** The lines a subgraph contributes to its parent: the header, the body
      indented once more, and the closing `end`. */
  function SubgraphBlock(id: string, text: string, body: seq<string>): (r: seq<string>)
    ensures |r| == |body| + 2
    ensures r[0] == Indent + "subgraph " + id + "[\"" + EscapeLabel(text) + "\"]"
    ensures r[1..|r| - 1] == Indented(body)
    ensures r[|r| - 1] == Indent + "end"
  {
    [Indent + "subgraph " + id + "[\"" + EscapeLabel(text) + "\"]"] + Indented(body) + [Indent + "end"]
  }

  /** A node line as both builders write it. */
  function NodeLine(id: string, text: string, shape: string): string {
    Indent + NodeShape(id, EscapeLabel(text), shape)
  }

  /** An edge line as both builders write it. */
  function EdgeLine(from: string, to: string, text: string, style: string): string {
    Indent + from + " " + EdgeArrow(style, EscapeLabel(text)) + " " + to
  }
}
