/** The Mermaid flowchart builder: an ordered list of node, edge and subgraph
    lines plus a separate list of style lines, rendered as a header, the
    lines, then the styles. A subgraph is built in its own `Subgraph` object
    and spliced into its parent; the callback that fills it in Go is the
    caller filling that object before passing it in. */
module MermaidFlowchart {
  import opened StrUtil
  import opened Wrappers
  import opened MermaidCommon

  function Header(direction: string): string {
    "flowchart " + direction
  }

  /** The text `Render` returns for a chart in the given state. */
  function RenderText(direction: string, lines: seq<string>, styles: seq<string>): string {
    Header(direction) + "\n" + Terminated(lines) + Terminated(styles)
  }

  function StyleLine(nodeID: string, style: string): string {
    Indent + "style " + nodeID + " " + style
  }

  predicate NoNewline(s: string) { '\n' !in s }

  predicate AllNoNewline(lines: seq<string>) {
    forall i :: 0 <= i < |lines| ==> NoNewline(lines[i])
  }

  /** Reading the rendered text back line by line gives the header, every
      line in insertion order, then every style in insertion order: styles
      always come after all nodes, edges and subgraphs. */
  lemma RenderLayout(direction: string, lines: seq<string>, styles: seq<string>)
    requires NoNewline(direction) && AllNoNewline(lines) && AllNoNewline(styles)
    ensures Split(RenderText(direction, lines, styles), '\n') == [Header(direction)] + lines + styles + [""]
  {
    var all := [Header(direction)] + lines + styles;
    TerminatedAppend([Header(direction)] + lines, styles);
    TerminatedAppend([Header(direction)], lines);
    assert Terminated([Header(direction)]) == Header(direction) + "\n" by {
      assert [Header(direction)][..0] == [];
    }
    assert Terminated(all) == RenderText(direction, lines, styles);
    assert NoNewline(Header(direction)) by {
      assert Header(direction) == "flowchart " + direction;
      assert forall i :: 0 <= i < 10 ==> Header(direction)[i] != '\n';
      assert forall i :: 10 <= i < |Header(direction)| ==> Header(direction)[i] == direction[i - 10];
    }
    assert forall i :: 0 <= i < |all| ==> '\n' !in all[i] by {
      forall i | 0 <= i < |all| ensures '\n' !in all[i] {
        if i == 0 {
        } else if i <= |lines| {
          assert all[i] == lines[i - 1];
        } else {
          assert all[i] == styles[i - 1 - |lines|];
        }
      }
    }
    TerminatedSplit(all);
  }

  /** The loop both builders run to splice a subgraph into its parent:
      the header, each body line with four more spaces, then `end`. */
  method BuildSubgraphBlock(id: string, text: string, body: seq<string>) returns (block: seq<string>)
    ensures block == SubgraphBlock(id, text, body)
  {
    block := [Indent + "subgraph " + id + "[\"" + EscapeLabel(text) + "\"]"];
    for i := 0 to |body|
      invariant block == [Indent + "subgraph " + id + "[\"" + EscapeLabel(text) + "\"]"] + Indented(body[..i])
    {
      IndentedAppend(body[..i], [body[i]]);
      assert body[..i + 1] == body[..i] + [body[i]];
      block := block + [Indent + body[i]];
    }
    assert body[..|body|] == body;
    block := block + [Indent + "end"];
  }

  /** Lines collected inside a subgraph. */
  class Subgraph {
    var lines: seq<string>

    constructor()
      ensures lines == []
    {
      lines := [];
    }

    method AddNode(id: string, text: string, shape: string)
      modifies this
      ensures lines == old(lines) + [NodeLine(id, text, shape)]
    {
      lines := lines + [NodeLine(id, text, shape)];
    }

    method AddEdge(from: string, to: string, text: string, style: string)
      modifies this
      ensures lines == old(lines) + [EdgeLine(from, to, text, style)]
    {
      lines := lines + [EdgeLine(from, to, text, style)];
    }

    method AddRaw(line: string)
      modifies this
      ensures lines == old(lines) + [Indent + line]
    {
      lines := lines + [Indent + line];
    }

    /** Splices a filled nested subgraph in: header, its lines indented once
        more, and `end`, so the list grows by two more than the nested one. */
    method AddNestedSubgraph(id: string, text: string, nested: Subgraph)
      requires nested != this
      modifies this
      ensures lines == old(lines) + SubgraphBlock(id, text, nested.lines)
      ensures |lines| == |old(lines)| + |nested.lines| + 2
    {
      var block := BuildSubgraphBlock(id, text, nested.lines);
      lines := lines + block;
    }
  }

  class Flowchart {
    var direction: string
    var lines: seq<string>
    var styles: seq<string>

    constructor(dir: string)
      ensures direction == dir && lines == [] && styles == []
    {
      direction := dir;
      lines := [];
      styles := [];
    }

    method AddNode(id: string, text: string, shape: string)
      modifies this
      ensures lines == old(lines) + [NodeLine(id, text, shape)]
      ensures styles == old(styles) && direction == old(direction)
    {
      lines := lines + [NodeLine(id, text, shape)];
    }

    method AddEdge(from: string, to: string, text: string, style: string)
      modifies this
      ensures lines == old(lines) + [EdgeLine(from, to, text, style)]
      ensures styles == old(styles) && direction == old(direction)
    {
      lines := lines + [EdgeLine(from, to, text, style)];
    }

    /** Splices a filled subgraph in: header, its lines indented once more,
        and `end`. */
    method AddSubgraph(id: string, text: string, sg: Subgraph)
      modifies this
      ensures lines == old(lines) + SubgraphBlock(id, text, sg.lines)
      ensures |lines| == |old(lines)| + |sg.lines| + 2
      ensures styles == old(styles) && direction == old(direction)
    {
      var block := BuildSubgraphBlock(id, text, sg.lines);
      lines := lines + block;
    }

    /** A known severity appends exactly one style line; any other severity
        changes nothing. */
    method AddStyle(nodeID: string, sev: string)
      modifies this
      ensures sev in KnownSeverities ==> styles == old(styles) + [StyleLine(nodeID, SeverityStyle(sev).value)]
      ensures sev !in KnownSeverities ==> styles == old(styles)
      ensures lines == old(lines) && direction == old(direction)
    {
      match SeverityStyle(sev)
      case Some(style) =>
        styles := styles + [StyleLine(nodeID, style)];
      case None =>
    }

    method AddRawStyle(nodeID: string, style: string)
      modifies this
      ensures styles == old(styles) + [StyleLine(nodeID, style)]
      ensures lines == old(lines) && direction == old(direction)
    {
      styles := styles + [StyleLine(nodeID, style)];
    }

    method AddRaw(line: string)
      modifies this
      ensures lines == old(lines) + [Indent + line]
      ensures styles == old(styles) && direction == old(direction)
    {
      lines := lines + [Indent + line];
    }

    method Render() returns (out: string)
      ensures out == RenderText(direction, lines, styles)
    {
      out := Header(direction) + "\n";
      for i := 0 to |lines|
        invariant out == Header(direction) + "\n" + Terminated(lines[..i])
      {
        assert lines[..i + 1][..i] == lines[..i];
        out := out + lines[i] + "\n";
      }
      assert lines[..|lines|] == lines;
      ghost var prefix := out;
      for i := 0 to |styles|
        invariant out == prefix + Terminated(styles[..i])
      {
        assert styles[..i + 1][..i] == styles[..i];
        out := out + styles[i] + "\n";
      }
      assert styles[..|styles|] == styles;
    }

    method RenderBlock() returns (out: string)
      ensures out == WrapBlock(RenderText(direction, lines, styles))
    {
      var text := Render();
      out := WrapBlock(text);
    }
  }
}
