/** Repainting: the "drawing-changed" and "tool-moved" observers redraw the
    whole display list, and the export button replays it on a 4x canvas. */
module Render {
  import opened Canvas
  import opened Marks
  import opened Js
  import opened Seqs

  /** What the display list looks like now: each mark's current shape, at
      the mark's position. */
  ghost function Snapshot(ms: seq<Mark>): (r: seq<Shape>)
    reads MarkRefs(ms)
    ensures |r| == |ms|
    ensures forall i | 0 <= i < |ms| :: r[i] == ms[i].State()
  {
    seq(|ms|, i requires 0 <= i < |ms| reads MarkRefs(ms) => ms[i].State())
  }

  /** The calls that display every shape, in display-list order. */
  function DrawAll(ss: seq<Shape>): seq<Cmd>
  {
    if ss == [] then [] else DrawAll(ss[..|ss| - 1]) + Draw(ss[|ss| - 1])
  }

  /** Clear the canvas and paint the background. */
  const Backdrop: seq<Cmd> := [ClearRect(Width, Height), FillStyle(Background), FillRect(Width, Height)]

  /** A "drawing-changed" repaint. */
  function Frame(ss: seq<Shape>): seq<Cmd>
  {
    Backdrop + DrawAll(ss)
  }

  /** A "tool-moved" repaint: the marks, then the hint on top. */
  function PreviewFrame(ss: seq<Shape>, hint: Shape): seq<Cmd>
  {
    Frame(ss) + Draw(hint)
  }

  /** The export canvas: scaled 4x, filled with the background over its
      1024x1024 extent, then the marks. No clearRect (the canvas is new), and no hint. */
  function ExportFrame(ss: seq<Shape>): seq<Cmd>
  {
    [Scale(ExportScale, ExportScale), FillStyle(Background), FillRect(ExportSize, ExportSize)] + DrawAll(ss)
  }

  /** The `for (const line of lines) line.display(ctx)` loop. */
  method DisplayAll(ms: seq<Mark>) returns (cmds: seq<Cmd>)
    ensures cmds == DrawAll(Snapshot(ms))
  {
    ghost var ss := Snapshot(ms);
    assert forall j | 0 <= j < |ms| :: ss[j] == ms[j].State();
    cmds := [];
    for i := 0 to |ms|
      invariant cmds == DrawAll(ss[..i])
    {
      ghost var s := ms[i].State();
      var c := DisplayMark(ms[i]);
      assert c == Draw(s) && s == ss[i];
      TakeSnoc(ss, i);
      DrawAllSnoc(ss[..i], s);
      cmds := cmds + c;
    }
    assert ss[..|ms|] == ss;
    assert unchanged(MarkRefs(ms));
  }

  /** The repaint of an observer: clear, background, the marks, then the hint
      when there is one. */
  method Paint(ms: seq<Mark>, hint: Option<Preview>) returns (cmds: seq<Cmd>)
    ensures cmds == if hint.Some? then PreviewFrame(Snapshot(ms), hint.value.State()) else Frame(Snapshot(ms))
  {
    var marks := DisplayAll(ms);
    label marksDrawn:
    cmds := Backdrop + marks;
    if hint.Some? {
      var top := DisplayPreview(hint.value);
      assert unchanged@marksDrawn(MarkRefs(ms));
      cmds := cmds + top;
    }
  }

  /** Drawing one more shape appends its calls. */
  lemma DrawAllSnoc(ss: seq<Shape>, s: Shape)
    ensures DrawAll(ss + [s]) == DrawAll(ss) + Draw(s)
  {
    assert (ss + [s])[..|ss|] == ss;
  }

  /** Drawing a list in two parts draws the first part, then the second. */
  lemma {:induction false} DrawAllAppend(a: seq<Shape>, b: seq<Shape>)
    ensures DrawAll(a + b) == DrawAll(a) + DrawAll(b)
    decreases |b|
  {
    if b == [] {
      assert a + b == a;
    } else {
      var b', last := b[..|b| - 1], b[|b| - 1];
      assert b == b' + [last];
      assert a + b == (a + b') + [last];
      DrawAllSnoc(a + b', last);
      DrawAllSnoc(b', last);
      DrawAllAppend(a, b');
      ConcatAssoc(DrawAll(a), DrawAll(b'), Draw(last));
    }
  }

  /** Later marks draw over earlier ones: appending a mark appends its calls
      to the end of the frame. */
  lemma FrameOfAppend(ss: seq<Shape>, s: Shape)
    ensures Frame(ss + [s]) == Frame(ss) + Draw(s)
  {
    DrawAllSnoc(ss, s);
    ConcatAssoc(Backdrop, DrawAll(ss), Draw(s));
  }

  /** Displaying any list of shapes leaves the transform as it was. */
  lemma {:induction false} DrawAllLeavesNoTransform(ss: seq<Shape>)
    ensures LeavesNoTransform(DrawAll(ss))
    decreases |ss|
  {
    if ss == [] {
      NeutralLeavesNoTransform([]);
    } else {
      DrawAllLeavesNoTransform(ss[..|ss| - 1]);
      DrawLeavesNoTransform(ss[|ss| - 1]);
      LeavesNoTransformAppend(DrawAll(ss[..|ss| - 1]), Draw(ss[|ss| - 1]));
    }
  }

  /** Every repaint of the canvas leaves its transform as it was, whatever
      the marks and the hint. */
  lemma FramesLeaveNoTransform(ss: seq<Shape>, hint: Shape)
    ensures LeavesNoTransform(Frame(ss))
    ensures LeavesNoTransform(PreviewFrame(ss, hint))
  {
    NeutralLeavesNoTransform(Backdrop);
    DrawAllLeavesNoTransform(ss);
    LeavesNoTransformAppend(Backdrop, DrawAll(ss));
    DrawLeavesNoTransform(hint);
    LeavesNoTransformAppend(Frame(ss), Draw(hint));
  }

  /** No shape in the list is a ring, so no arc is drawn. */
  lemma {:induction false} DrawAllWithoutRing(ss: seq<Shape>)
    requires forall i | 0 <= i < |ss| :: !ss[i].Circle?
    ensures forall c | c in DrawAll(ss) :: !c.Arc?
    decreases |ss|
  {
    if ss != [] {
      DrawAllWithoutRing(ss[..|ss| - 1]);
      ArcOnlyFromRing(ss[|ss| - 1]);
    }
  }

  /** The export draws the same marks, in the same order, as the on-screen
      repaint, and never the pen's ring hint: marks are never rings. */
  lemma ExportMatchesScreen(ms: seq<Mark>)
    ensures ExportFrame(Snapshot(ms))[3..] == Frame(Snapshot(ms))[|Backdrop|..]
    ensures forall c | c in ExportFrame(Snapshot(ms)) :: !c.Arc?
  {
    var ss := Snapshot(ms);
    DrawAllWithoutRing(ss);
    assert ExportFrame(ss)[3..] == DrawAll(ss);
  }
}
