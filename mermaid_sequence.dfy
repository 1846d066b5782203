/** The Mermaid sequence-diagram builder: one ordered list of lines, each
    adder appending in a fixed format, rendered after a `sequenceDiagram`
    header. Unlike the flowchart builder, labels are not escaped. */
module MermaidSequence {
  import opened StrUtil
  import opened MermaidCommon

  const Header: string := "sequenceDiagram"

  /** The text `Render` returns for the given lines. */
  function RenderText(lines: seq<string>): string {
    Header + "\n" + Terminated(lines)
  }

  /** The arrow of a message style; any unknown style is a solid arrow. */
  function ArrowStyle(style: string): (a: string)
    ensures style !in NamedStyles ==> a == "->>"
    ensures HasPrefix(a, "-")
  {
    match style
    case "dotted" => "-->>"
    case "solid_open" => "-)"
    case "dotted_open" => "--)"
    case _ => "->>"
  }

  /** The styles `ArrowStyle` knows by name; every other style is solid. */
  const NamedStyles: set<string> := {"dotted", "solid_open", "dotted_open"}

  /** The named styles and the default draw four different arrows: two
      styles share an arrow only when they are the same or both fall back
      to the default. */
  lemma ArrowStylesDistinct(s: string, t: string)
    requires ArrowStyle(s) == ArrowStyle(t)
    ensures s == t || (s !in NamedStyles && t !in NamedStyles)
  {
  }

  /** Reading the rendered text back line by line gives the header and then
      every line in insertion order. */
  lemma RenderLayout(lines: seq<string>)
    requires forall i :: 0 <= i < |lines| ==> '\n' !in lines[i]
    ensures Split(RenderText(lines), '\n') == [Header] + lines + [""]
  {
    TerminatedAppend([Header], lines);
    assert Terminated([Header]) == Header + "\n" by {
      assert [Header][..0] == [];
    }
    var all := [Header] + lines;
    forall i | 0 <= i < |all| ensures '\n' !in all[i] {
      if i > 0 {
        assert all[i] == lines[i - 1];
      }
    }
    TerminatedSplit(all);
  }

  class Sequence {
    var lines: seq<string>

    constructor()
      ensures lines == []
    {
      lines := [];
    }

    method AddParticipant(id: string, text: string)
      modifies this
      ensures lines == old(lines) + [Indent + "participant " + id + " as " + text]
    {
      lines := lines + [Indent + "participant " + id + " as " + text];
    }

    method AddActor(id: string, text: string)
      modifies this
      ensures lines == old(lines) + [Indent + "actor " + id + " as " + text]
    {
      lines := lines + [Indent + "actor " + id + " as " + text];
    }

    method AddMessage(from: string, to: string, text: string, style: string)
      modifies this
      ensures lines == old(lines) + [Indent + from + ArrowStyle(style) + to + ": " + text]
    {
      var arrow := ArrowStyle(style);
      lines := lines + [Indent + from + arrow + to + ": " + text];
    }

    /** `pos` is "over", "right of" or "left of" (any string is accepted). */
    method AddNote(participant: string, text: string, pos: string)
      modifies this
      ensures lines == old(lines) + [Indent + "Note " + pos + " " + participant + ": " + text]
    {
      lines := lines + [Indent + "Note " + pos + " " + participant + ": " + text];
    }

    method AddNoteSpanning(from: string, to: string, text: string)
      modifies this
      ensures lines == old(lines) + [Indent + "Note over " + from + "," + to + ": " + text]
    {
      lines := lines + [Indent + "Note over " + from + "," + to + ": " + text];
    }

    method AddActivate(participant: string)
      modifies this
      ensures lines == old(lines) + [Indent + "activate " + participant]
    {
      lines := lines + [Indent + "activate " + participant];
    }

    method AddDeactivate(participant: string)
      modifies this
      ensures lines == old(lines) + [Indent + "deactivate " + participant]
    {
      lines := lines + [Indent + "deactivate " + participant];
    }

    /** Splices a filled inner diagram in: `rect <color>`, the inner lines
        unchanged (no extra indent), then `end`. */
    method AddRect(color: string, inner: Sequence)
      requires inner != this
      modifies this
      ensures lines == old(lines) + [Indent + "rect " + color] + inner.lines + [Indent + "end"]
      ensures |lines| == |old(lines)| + |inner.lines| + 2
    {
      lines := lines + [Indent + "rect " + color];
      lines := lines + inner.lines;
      lines := lines + [Indent + "end"];
    }

    method AddRaw(line: string)
      modifies this
      ensures lines == old(lines) + [Indent + line]
    {
      lines := lines + [Indent + line];
    }

    method Render() returns (out: string)
      ensures out == RenderText(lines)
    {
      out := Header + "\n";
      for i := 0 to |lines|
        invariant out == Header + "\n" + Terminated(lines[..i])
      {
        assert lines[..i + 1][..i] == lines[..i];
        out := out + lines[i] + "\n";
      }
      assert lines[..|lines|] == lines;
    }

    method RenderBlock() returns (out: string)
      ensures out == WrapBlock(RenderText(lines))
    {
      var text := Render();
      out := WrapBlock(text);
    }
  }
}
