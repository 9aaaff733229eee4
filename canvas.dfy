/** The surface the sketchpad paints on: pointer positions, the fixed sizes and
    colours it uses, and the 2D-context calls it issues, recorded as data. */
module Canvas {

  /** A pointer position in canvas pixels (a mouse event's offsetX/offsetY). */
  datatype Point = Point(x: int, y: int)

  /** Size of the on-screen canvas. */
  const Width: int := 256
  const Height: int := 256
  /** Size of the off-screen export canvas and the uniform scale applied to it. */
  const ExportSize: int := 1024
  const ExportScale: int := 4
  /** Fill colour of the background, on screen and in the export. */
  const Background: string := "white"
  /** Font used for every glyph, placed or previewed. */
  const GlyphFont: string := "32px Arial"
  /** Pen thicknesses set by the "Thin Doodle" and "Thick Doodle" buttons. */
  const Thin: int := 2
  const Thick: int := 8

  /** One call on a CanvasRenderingContext2D. Rectangles always start at the
      origin, so only their extent is kept. `Rotate` keeps the angle in degrees;
      the context receives `degrees * PI / 180` radians. */
  datatype Cmd =
    | ClearRect(w: int, h: int)
    | FillStyle(color: string)
    | FillRect(w: int, h: int)
    | Scale(sx: int, sy: int)
    | BeginPath
    | LineWidth(width: int)
    | MoveTo(to: Point)
    | LineTo(to: Point)
    | Stroke
    | Arc(center: Point, radius: real)
    | Save
    | Translate(offset: Point)
    | Rotate(degrees: int)
    | Font(font: string)
    | FillText(text: string)
    | Restore

  /** How a call changes the depth of the context's save()/restore() stack. */
  function StackEffect(c: Cmd): int
  {
    if c.Save? then 1 else if c.Restore? then -1 else 0
  }

  /** Calls that change the context's current transform. */
  predicate Transforms(c: Cmd)
  {
    c.Translate? || c.Rotate? || c.Scale?
  }

  /** Number of save() calls in `cmds` not yet matched by a restore(). */
  function Depth(cmds: seq<Cmd>): int
  {
    if cmds == [] then 0 else Depth(cmds[..|cmds| - 1]) + StackEffect(cmds[|cmds| - 1])
  }

  /** `cmds` hand the context back with the transform it was given: no restore()
      runs ahead of its save(), every translate/rotate/scale happens inside a
      save()/restore() pair, and every pair is closed at the end. */
  ghost predicate LeavesNoTransform(cmds: seq<Cmd>)
  {
    && Depth(cmds) == 0
    && (forall k | 0 <= k <= |cmds| :: Depth(cmds[..k]) >= 0)
    && (forall k | 0 <= k < |cmds| && Transforms(cmds[k]) :: Depth(cmds[..k]) > 0)
  }

  lemma {:induction false} DepthAppend(a: seq<Cmd>, b: seq<Cmd>)
    ensures Depth(a + b) == Depth(a) + Depth(b)
    decreases |b|
  {
    if b == [] {
      assert a + b == a;
    } else {
      var b' := b[..|b| - 1];
      assert (a + b)[..|a + b| - 1] == a + b';
      DepthAppend(a, b');
    }
  }

  /** Calls that neither save, restore nor transform leave no transform behind. */
  lemma {:induction false} NeutralLeavesNoTransform(cmds: seq<Cmd>)
    requires forall c | c in cmds :: StackEffect(c) == 0 && !Transforms(c)
    ensures forall k | 0 <= k <= |cmds| :: Depth(cmds[..k]) == 0
    ensures LeavesNoTransform(cmds)
    decreases |cmds|
  {
    if cmds != [] {
      var init := cmds[..|cmds| - 1];
      NeutralLeavesNoTransform(init);
      forall k | 0 <= k <= |cmds| ensures Depth(cmds[..k]) == 0 {
        if k < |cmds| {
          assert cmds[..k] == init[..k];
        } else {
          assert cmds[..k] == cmds;
          assert cmds[..|cmds|][..|cmds| - 1] == init;
        }
      }
      assert cmds[..|cmds|] == cmds;
    }
  }

  /** Running two well-behaved call sequences one after the other is well behaved. */
  lemma LeavesNoTransformAppend(a: seq<Cmd>, b: seq<Cmd>)
    requires LeavesNoTransform(a) && LeavesNoTransform(b)
    ensures LeavesNoTransform(a + b)
  {
    DepthAppend(a, b);
    forall k | |a| <= k <= |a + b|
      ensures (a + b)[..k] == a + b[..k - |a|]
      ensures Depth((a + b)[..k]) == Depth(b[..k - |a|])
    {
      assert (a + b)[..k] == a + b[..k - |a|];
      DepthAppend(a, b[..k - |a|]);
    }
    forall k | 0 <= k <= |a + b| ensures Depth((a + b)[..k]) >= 0 {
      if k <= |a| {
        assert (a + b)[..k] == a[..k];
      }
    }
    forall k | 0 <= k < |a + b| && Transforms((a + b)[k]) ensures Depth((a + b)[..k]) > 0 {
      if k < |a| {
        assert (a + b)[..k] == a[..k];
      } else {
        assert (a + b)[k] == b[k - |a|];
      }
    }
  }
}
