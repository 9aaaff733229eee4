/** The things drawn on the canvas. Committed marks are freehand lines
    (`DoodleLine`) and placed glyphs (`Emoji`); the pointer-following tool hints
    are a ring for the pen (`ToolPreview`) and a glyph for the sticker tool
    (`EmojiPreview`). Each is an object whose fields its methods update in place;
    `State` reads an object into a `Shape` value and `Draw` says which canvas
    calls the object's `display` makes. */
module Marks {
  import opened Canvas

  /** What an object looks like at one moment. */
  datatype Shape =
    | Path(points: seq<Point>, thickness: int)
    | Glyph(at: Point, text: string, rotation: int)
    | Circle(at: Point, thickness: int)

  /** `after` is `before` moved to `p` with every other attribute kept; only
      glyphs and rings have a position to move. */
  predicate Moved(before: Shape, after: Shape, p: Point)
  {
    match before
    case Path(_, _) => false
    case Glyph(_, text, rotation) => after == Glyph(p, text, rotation)
    case Circle(_, thickness) => after == Circle(p, thickness)
  }

  /** `after` is the glyph `before` turned to `degrees`, in place. */
  predicate Turned(before: Shape, after: Shape, degrees: int)
  {
    before.Glyph? && after == Glyph(before.at, before.text, degrees)
  }

  /** One lineTo per point, in order. */
  function Segments(points: seq<Point>): (r: seq<Cmd>)
    ensures |r| == |points|
    ensures forall i | 0 <= i < |points| :: r[i] == LineTo(points[i])
  {
    if points == [] then [] else Segments(points[..|points| - 1]) + [LineTo(points[|points| - 1])]
  }

  /** The canvas calls that display `s`. A path with no point draws nothing; a
      path is started at its first point and then visits every point, so a
      one-point line is a degenerate path. A glyph is drawn inside a
      save()/restore() pair. A ring has radius half the pen thickness. */
  function Draw(s: Shape): seq<Cmd>
  {
    match s
    case Path(points, thickness) =>
      if |points| > 0 then [BeginPath, LineWidth(thickness), MoveTo(points[0])] + Segments(points) + [Stroke]
      else []
    case Glyph(at, text, rotation) =>
      [Save, Translate(at), Rotate(rotation), Font(GlyphFont), FillText(text), Restore]
    case Circle(at, thickness) =>
      [BeginPath, Arc(at, thickness as real / 2.0), Stroke]
  }

  /** A freehand line: a point list that only grows, and a fixed pen width. */
  class DoodleLine {
    var points: seq<Point>
    var thickness: int

    constructor (initialX: int, initialY: int, thickness: int)
      ensures points == [Point(initialX, initialY)] && this.thickness == thickness
    {
      points := [Point(initialX, initialY)];
      this.thickness := thickness;
    }

    /** Extends the line to the pointer. */
    method Drag(x: int, y: int)
      modifies this
      ensures points == old(points) + [Point(x, y)] && thickness == old(thickness)
    {
      points := points + [Point(x, y)];
    }

    function State(): Shape
      reads this
    {
      Path(points, thickness)
    }

    method Display() returns (cmds: seq<Cmd>)
      ensures cmds == Draw(State())
    {
      cmds := [];
      if |points| > 0 {
        var start := [BeginPath, LineWidth(thickness), MoveTo(points[0])];
        cmds := start;
        for i := 0 to |points|
          invariant cmds == start + Segments(points[..i])
        {
          assert points[..i + 1][..i] == points[..i];
          cmds := cmds + [LineTo(points[i])];
        }
        assert points[..|points|] == points;
        cmds := cmds + [Stroke];
      }
    }
  }

  /** A placed glyph: it moves, but its text and rotation are fixed. */
  class Emoji {
    var x: int
    var y: int
    var emoji: string
    var rotation: int

    constructor (x: int, y: int, emoji: string, rotation: int)
      ensures this.x == x && this.y == y && this.emoji == emoji && this.rotation == rotation
    {
      this.x := x;
      this.y := y;
      this.emoji := emoji;
      this.rotation := rotation;
    }

    /** Moves the glyph to the pointer. */
    method Drag(x: int, y: int)
      modifies this
      ensures this.x == x && this.y == y
      ensures emoji == old(emoji) && rotation == old(rotation)
    {
      this.x := x;
      this.y := y;
    }

    function State(): Shape
      reads this
    {
      Glyph(Point(x, y), emoji, rotation)
    }

    method Display() returns (cmds: seq<Cmd>)
      ensures cmds == Draw(State())
    {
      cmds := [Save, Translate(Point(x, y)), Rotate(rotation), Font(GlyphFont), FillText(emoji), Restore];
    }
  }

  /** The pen's hint: a ring the size of the pen, following the pointer. */
  class ToolPreview {
    var x: int
    var y: int
    var thickness: int

    constructor (x: int, y: int, thickness: int)
      ensures this.x == x && this.y == y && this.thickness == thickness
    {
      this.x := x;
      this.y := y;
      this.thickness := thickness;
    }

    method UpdatePosition(x: int, y: int)
      modifies this
      ensures this.x == x && this.y == y && thickness == old(thickness)
    {
      this.x := x;
      this.y := y;
    }

    function State(): Shape
      reads this
    {
      Circle(Point(x, y), thickness)
    }

    method Display() returns (cmds: seq<Cmd>)
      ensures cmds == Draw(State())
    {
      cmds := [BeginPath, Arc(Point(x, y), thickness as real / 2.0), Stroke];
    }
  }

  /** The sticker tool's hint: the glyph at the pointer, at the slider's rotation. */
  class EmojiPreview {
    var x: int
    var y: int
    var emoji: string
    var rotation: int

    constructor (x: int, y: int, emoji: string, rotation: int)
      ensures this.x == x && this.y == y && this.emoji == emoji && this.rotation == rotation
    {
      this.x := x;
      this.y := y;
      this.emoji := emoji;
      this.rotation := rotation;
    }

    method UpdatePosition(x: int, y: int)
      modifies this
      ensures this.x == x && this.y == y
      ensures emoji == old(emoji) && rotation == old(rotation)
    {
      this.x := x;
      this.y := y;
    }

    method UpdateRotation(rotation: int)
      modifies this
      ensures this.rotation == rotation
      ensures x == old(x) && y == old(y) && emoji == old(emoji)
    {
      this.rotation := rotation;
    }

    function State(): Shape
      reads this
    {
      Glyph(Point(x, y), emoji, rotation)
    }

    method Display() returns (cmds: seq<Cmd>)
      ensures cmds == Draw(State())
    {
      cmds := [Save, Translate(Point(x, y)), Rotate(rotation), Font(GlyphFont), FillText(emoji), Restore];
    }
  }

  /** An element of the display list or the redo stack (`DoodleLine | Emoji`). */
  datatype Mark = Doodle(line: DoodleLine) | Stamp(emoji: Emoji)
  {
    function Ref(): object
    {
      match this
      case Doodle(l) => l
      case Stamp(e) => e
    }

    /** A committed mark is never drawn as a ring. */
    function State(): (s: Shape)
      reads Ref()
      ensures !s.Circle?
      ensures Doodle? <==> s.Path?
    {
      match this
      case Doodle(l) => l.State()
      case Stamp(e) => e.State()
    }
  }

  /** The current tool hint (`ToolPreview | EmojiPreview`). */
  datatype Preview = Ring(ring: ToolPreview) | Sticker(sticker: EmojiPreview)
  {
    function Ref(): (r: object)
      ensures r is ToolPreview || r is EmojiPreview
    {
      match this
      case Ring(p) => p
      case Sticker(p) => p
    }

    /** The pen's hint draws as a ring, the sticker's as a glyph. */
    function State(): (s: Shape)
      reads Ref()
      ensures s.Circle? || s.Glyph?
      ensures Ring? <==> s.Circle?
    {
      match this
      case Ring(p) => p.State()
      case Sticker(p) => p.State()
    }
  }

  /** The objects behind the marks of `ms`. */
  function MarkRefs(ms: seq<Mark>): set<object>
  {
    (set m | m in ms && m.Doodle? :: m.line) + (set m | m in ms && m.Stamp? :: m.emoji)
  }

  /** `display` on a mark, dispatched on its class. */
  method DisplayMark(m: Mark) returns (cmds: seq<Cmd>)
    ensures cmds == Draw(m.State())
  {
    match m
    case Doodle(l) => cmds := l.Display();
    case Stamp(e) => cmds := e.Display();
  }

  /** `display` on the tool hint, dispatched on its class. */
  method DisplayPreview(p: Preview) returns (cmds: seq<Cmd>)
    ensures cmds == Draw(p.State())
  {
    match p
    case Ring(r) => cmds := r.Display();
    case Sticker(s) => cmds := s.Display();
  }

  /** `updatePosition` on the tool hint, whichever class it is. */
  method MovePreview(p: Preview, x: int, y: int)
    modifies p.Ref()
    ensures Moved(old(p.State()), p.State(), Point(x, y))
  {
    match p
    case Ring(r) => r.UpdatePosition(x, y);
    case Sticker(s) => s.UpdatePosition(x, y);
  }

  /** Every shape hands the context back with the transform it was given. */
  lemma DrawLeavesNoTransform(s: Shape)
    ensures LeavesNoTransform(Draw(s))
  {
    match s
    case Path(_, _) =>
      NeutralLeavesNoTransform(Draw(s));
    case Circle(_, _) =>
      NeutralLeavesNoTransform(Draw(s));
    case Glyph(at, text, rotation) =>
      GlyphLeavesNoTransform(at, text, rotation);
  }

  /** A glyph's translate and rotate sit inside its save()/restore() pair:
      the depth is 1 after the save() and until the restore(). */
  lemma GlyphLeavesNoTransform(at: Point, text: string, rotation: int)
    ensures forall k | 0 <= k <= 6 :: Depth(Draw(Glyph(at, text, rotation))[..k]) == [0, 1, 1, 1, 1, 1, 0][k]
    ensures LeavesNoTransform(Draw(Glyph(at, text, rotation)))
  {
    var cmds := Draw(Glyph(at, text, rotation));
    var depths := [0, 1, 1, 1, 1, 1, 0];
    forall k | 0 <= k <= |cmds| ensures Depth(cmds[..k]) == depths[k] {
      PrefixDepth(cmds, depths, k);
    }
    assert cmds[..|cmds|] == cmds;
  }

  /** The depth after the first k glyph calls, proved prefix by prefix. */
  lemma {:induction false} PrefixDepth(cmds: seq<Cmd>, depths: seq<int>, k: nat)
    requires |cmds| == 6 && depths == [0, 1, 1, 1, 1, 1, 0]
    requires cmds[0].Save? && cmds[5].Restore?
    requires forall i | 1 <= i < 5 :: StackEffect(cmds[i]) == 0
    requires k <= 6
    ensures Depth(cmds[..k]) == depths[k]
  {
    if k > 0 {
      PrefixDepth(cmds, depths, k - 1);
      assert cmds[..k][..k - 1] == cmds[..k - 1];
    } else {
      assert cmds[..k] == [];
    }
  }

  /** Only a ring issues an arc. */
  lemma ArcOnlyFromRing(s: Shape)
    ensures !s.Circle? ==> forall c | c in Draw(s) :: !c.Arc?
  {
    if s.Path? && |s.points| > 0 {
      var segs := Segments(s.points);
      assert forall c | c in segs :: c.LineTo?;
    }
  }
}
