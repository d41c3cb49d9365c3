/** The text plugin's render systems: text labels are copied out of the app
    world (`extract_text_labels`) and turned into Foreground-layer text
    commands (`prepare_text_labels`). */
module TextRender {
  import opened Common

  /** The `TextLabel` component. */
  datatype TextLabel = TextLabel(text: string)

  /** One row of the query `(&TextLabel, &GlobalTransform)`. */
  datatype LabelRow = LabelRow(textLabel: TextLabel, transform: GlobalTransform)

  /** `ExtractedTextLabel`. */
  datatype ExtractedTextLabel = ExtractedTextLabel(text: string, transform: GlobalTransform)

  /** `extract_text_labels`: one extracted label per query row, in iteration
      order, with the text and the transform copied. The resource is
      replaced wholesale, so the list depends on the rows alone. */
  function ExtractTextLabels(rows: seq<LabelRow>): (r: seq<ExtractedTextLabel>)
    ensures |r| == |rows|
    ensures forall i :: 0 <= i < |rows| ==> r[i].text == rows[i].textLabel.text && r[i].transform == rows[i].transform
    decreases |rows|
  {
    if rows == [] then []
    else
      var last := rows[|rows| - 1];
      ExtractTextLabels(rows[..|rows| - 1]) + [ExtractedTextLabel(last.textLabel.text, last.transform)]
  }

  /** The command a label is drawn with. */
  function TextCommand(l: ExtractedTextLabel): RenderCommand
  {
    RenderCommand(Text(l.text, l.transform), Foreground)
  }

  /** `prepare_text_labels`: one Foreground text command per extracted
      label, in the labels' order. The labels are only read. */
  function PrepareTextLabels(labels: seq<ExtractedTextLabel>): (r: seq<RenderCommand>)
    ensures |r| == |labels|
    ensures forall i :: 0 <= i < |r| ==> r[i].layer == Foreground && r[i].kind.Text?
    ensures forall i :: 0 <= i < |r| ==> r[i].kind.text == labels[i].text && r[i].kind.transform == labels[i].transform
    decreases |labels|
  {
    if labels == [] then []
    else [TextCommand(labels[0])] + PrepareTextLabels(labels[1..])
  }

  /** Reading a label back from a text command. */
  function LabelOf(cmd: RenderCommand): ExtractedTextLabel
    requires cmd.kind.Text?
  {
    ExtractedTextLabel(cmd.kind.text, cmd.kind.transform)
  }

  /** The commands determine the labels: reading them back gives the
      labels they were prepared from. */
  lemma {:induction false} PrepareRoundTrip(labels: seq<ExtractedTextLabel>)
    ensures var cmds := PrepareTextLabels(labels);
      forall i :: 0 <= i < |cmds| ==> LabelOf(cmds[i]) == labels[i]
  {
  }

  /** Preparing two lists of labels one after the other sends the same
      commands as preparing their concatenation. */
  lemma {:induction false} PrepareAppend(a: seq<ExtractedTextLabel>, b: seq<ExtractedTextLabel>)
    ensures PrepareTextLabels(a + b) == PrepareTextLabels(a) + PrepareTextLabels(b)
    decreases |a|
  {
    if a == [] {
      assert a + b == b;
    } else {
      assert (a + b)[1..] == a[1..] + b;
      PrepareAppend(a[1..], b);
    }
  }

  /** From query rows to commands: the i-th command draws the i-th label's
      text, verbatim, at its transform, in the foreground. */
  lemma {:induction false} ExtractThenPrepare(rows: seq<LabelRow>)
    ensures var cmds := PrepareTextLabels(ExtractTextLabels(rows));
      && |cmds| == |rows|
      && forall i :: 0 <= i < |rows| ==>
           cmds[i] == RenderCommand(Text(rows[i].textLabel.text, rows[i].transform), Foreground)
  {
  }
}
