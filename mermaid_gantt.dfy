/** The Mermaid gantt builder: a title, two format settings with defaults,
    and an ordered list of section, task and milestone lines. */
module MermaidGantt {
  import opened StrUtil
  import opened MermaidCommon

  const DefaultDateFormat: string := "HH:mm"
  const DefaultAxisFormat: string := "%H:%M"
  /** The gap between a task name and its colon, as the builder writes it. */
  const TaskGap: string := "           "

  /** The five preamble lines `Render` writes before the added lines. */
  function Preamble(title: string, dateFormat: string, axisFormat: string): seq<string> {
    ["gantt", Indent + "title " + title, Indent + "dateFormat " + dateFormat,
     Indent + "axisFormat " + axisFormat, ""]
  }

  /** The text `Render` returns: the preamble and then the lines, each
      newline-terminated. */
  function RenderText(title: string, dateFormat: string, axisFormat: string, lines: seq<string>): string {
    Terminated(Preamble(title, dateFormat, axisFormat) + lines)
  }

  /** Reading the rendered text back line by line gives `gantt`, the title
      and the two format lines, a blank line, then every line in order. */
  lemma RenderLayout(title: string, dateFormat: string, axisFormat: string, lines: seq<string>)
    requires '\n' !in title && '\n' !in dateFormat && '\n' !in axisFormat
    requires forall i :: 0 <= i < |lines| ==> '\n' !in lines[i]
    ensures Split(RenderText(title, dateFormat, axisFormat, lines), '\n')
         == Preamble(title, dateFormat, axisFormat) + lines + [""]
  {
    var all := Preamble(title, dateFormat, axisFormat) + lines;
    forall i | 0 <= i < |all| ensures '\n' !in all[i] {
      if i >= 5 {
        assert all[i] == lines[i - 5];
      }
    }
    TerminatedSplit(all);
  }

  class Gantt {
    var title: string
    var dateFormat: string
    var axisFormat: string
    var lines: seq<string>

    constructor(title: string)
      ensures this.title == title
      ensures dateFormat == DefaultDateFormat && axisFormat == DefaultAxisFormat
      ensures lines == []
    {
      this.title := title;
      dateFormat := DefaultDateFormat;
      axisFormat := DefaultAxisFormat;
      lines := [];
    }

    method SetDateFormat(format: string)
      modifies this
      ensures dateFormat == format
      ensures title == old(title) && axisFormat == old(axisFormat) && lines == old(lines)
    {
      dateFormat := format;
    }

    method SetAxisFormat(format: string)
      modifies this
      ensures axisFormat == format
      ensures title == old(title) && dateFormat == old(dateFormat) && lines == old(lines)
    {
      axisFormat := format;
    }

    method AddSection(name: string)
      modifies this
      ensures lines == old(lines) + [Indent + "section " + name]
      ensures title == old(title) && dateFormat == old(dateFormat) && axisFormat == old(axisFormat)
    {
      lines := lines + [Indent + "section " + name];
    }

    /** `status` is free text such as "active", "done" or "crit, active". */
    method AddTask(name: string, status: string, start: string, end: string)
      modifies this
      ensures lines == old(lines) + [Indent + name + TaskGap + ":" + status + ", " + start + ", " + end]
      ensures title == old(title) && dateFormat == old(dateFormat) && axisFormat == old(axisFormat)
    {
      lines := lines + [Indent + name + TaskGap + ":" + status + ", " + start + ", " + end];
    }

    method AddMilestone(name: string, date: string)
      modifies this
      ensures lines == old(lines) + [Indent + name + TaskGap + ":milestone, " + date + ", 0d"]
      ensures title == old(title) && dateFormat == old(dateFormat) && axisFormat == old(axisFormat)
    {
      lines := lines + [Indent + name + TaskGap + ":milestone, " + date + ", 0d"];
    }

    method Render() returns (out: string)
      ensures out == RenderText(title, dateFormat, axisFormat, lines)
    {
      ghost var pre := Preamble(title, dateFormat, axisFormat);
      ghost var written: seq<string> := [];
      var line := "gantt";
      TerminatedSnoc(written, line);
      out := line + "\n";
      written := written + [line];
      assert out == Terminated(written);
      line := Indent + "title " + title;
      TerminatedSnoc(written, line);
      out := out + line + "\n";
      written := written + [line];
      assert out == Terminated(written);
      line := Indent + "dateFormat " + dateFormat;
      TerminatedSnoc(written, line);
      out := out + line + "\n";
      written := written + [line];
      assert out == Terminated(written);
      line := Indent + "axisFormat " + axisFormat;
      TerminatedSnoc(written, line);
      out := out + line + "\n";
      written := written + [line];
      assert out == Terminated(written);
      line := "";
      TerminatedSnoc(written, line);
      out := out + line + "\n";
      written := written + [line];
      assert out == Terminated(written);
      assert written == pre;
      assert pre + lines[..0] == pre;
      for i := 0 to |lines|
        invariant out == Terminated(pre + lines[..i])
      {
        TerminatedSnoc(pre + lines[..i], lines[i]);
        assert pre + lines[..i + 1] == pre + lines[..i] + [lines[i]];
        out := out + lines[i] + "\n";
      }
      assert lines[..|lines|] == lines;
    }

    method RenderBlock() returns (out: string)
      ensures out == WrapBlock(RenderText(title, dateFormat, axisFormat, lines))
    {
      var text := Render();
      out := WrapBlock(text);
    }
  }
}
