/** The sketchpad page: its module-level variables become the fields of one
    `Editor`, and each mouse, button and slider handler a method on it. A
    handler that dispatches "drawing-changed" or "tool-moved" calls the
    matching observer directly; `screen` holds the calls of the last repaint. */
module Sketchpad {
  import opened Js
  import opened Canvas
  import opened Marks
  import opened Render
  import opened History

  /** The emoji buttons created at load, in button order. */
  const Emojis: seq<string> := ["\U{1F600}", "\U{1F3A8}", "\U{2728}"]

  class Editor {
    /** Whether the canvas gave a 2D context; fixed at load. */
    const hasContext: bool
    var drawing: bool
    /** The display list. */
    var lines: seq<Mark>
    var currentLine: DoodleLine?
    var currentEmoji: Emoji?
    var redoStack: seq<Mark>
    var currentThickness: int
    var toolPreview: Option<Preview>
    var currentEmojiString: Option<string>
    var currentRotation: int
    /** Glyphs added through the "Custom Emoji" prompt, in order. */
    var customEmojis: seq<string>
    /** The calls of the most recent paint of the on-screen canvas. */
    var screen: seq<Cmd>

    /** The display list and the redo stack. */
    ghost function Doc(): History<Mark>
      reads this`lines, this`redoStack
    {
      History(lines, redoStack)
    }

    /** The selected tool: pen thickness, sticker glyph, slider rotation. */
    ghost function Tools(): (int, Option<string>, int)
      reads this`currentThickness, this`currentEmojiString, this`currentRotation
    {
      (currentThickness, currentEmojiString, currentRotation)
    }

    /** What the pointer is doing: pressed on a line, the marks being dragged, the hint. */
    ghost function Pointer(): (bool, DoodleLine?, Emoji?, Option<Preview>)
      reads this`drawing, this`currentLine, this`currentEmoji, this`toolPreview
    {
      (drawing, currentLine, currentEmoji, toolPreview)
    }

    function PreviewRefs(): set<object>
      reads this`toolPreview
    {
      if toolPreview.Some? then {toolPreview.value.Ref()} else {}
    }

    /** What the hint looks like, if there is one. */
    ghost function Hint(): Option<Shape>
      reads this`toolPreview, PreviewRefs()
    {
      if toolPreview.Some? then Some(toolPreview.value.State()) else None
    }

    /** The glyph of every emoji button, in button order. */
    function EmojiChoices(): seq<string>
      reads this`customEmojis
    {
      Emojis + customEmojis
    }

    /** `drawing` is set exactly while a line is being drawn, every line holds
        a point, and no mark is in the display list and the redo stack at once,
        nor twice in either. */
    ghost predicate Valid()
      reads this`drawing, this`currentLine, this`lines, this`redoStack
      reads currentLine, MarkRefs(lines), MarkRefs(redoStack)
    {
      && (drawing <==> currentLine != null)
      && (currentLine != null ==> currentLine.points != [])
      && (forall m | m in lines && m.Doodle? :: m.line.points != [])
      && (forall m | m in redoStack && m.Doodle? :: m.line.points != [])
      && Distinct(Doc().Timeline())
    }

    /** Page load: thin pen, no glyph, rotation 0, empty history, and the
        canvas filled white when it has a context. */
    constructor (hasContext: bool)
      ensures Valid() && this.hasContext == hasContext
      ensures Pointer() == (false, null, null, None)
      ensures lines == [] && redoStack == []
      ensures Tools() == (Thin, None, 0) && customEmojis == []
      ensures screen == if hasContext then [FillStyle(Background), FillRect(Width, Height)] else []
    {
      this.hasContext := hasContext;
      drawing := false;
      lines := [];
      currentLine := null;
      currentEmoji := null;
      redoStack := [];
      currentThickness := Thin;
      toolPreview := None;
      currentEmojiString := None;
      currentRotation := 0;
      customEmojis := [];
      screen := if hasContext then [FillStyle(Background), FillRect(Width, Height)] else [];
    }

    /** The "drawing-changed" observer: repaint the display list. */
    method DrawingChanged()
      requires Valid()
      modifies this`screen
      ensures Valid()
      ensures screen == if hasContext then Frame(Snapshot(lines)) else old(screen)
    {
      if hasContext {
        var frame := Paint(lines, None);
        assert this !in MarkRefs(lines) + MarkRefs(redoStack);
        screen := frame;
      }
    }

    /** The "tool-moved" observer: repaint the display list with the hint on
        top, and only when there is a hint. */
    method ToolMoved()
      requires Valid()
      modifies this`screen
      ensures Valid() && unchanged(PreviewRefs())
      ensures screen ==
        if hasContext && toolPreview.Some? then PreviewFrame(Snapshot(lines), toolPreview.value.State())
        else old(screen)
    {
      if hasContext && toolPreview.Some? {
        var frame := Paint(lines, toolPreview);
        assert this !in MarkRefs(lines) + MarkRefs(redoStack) && this != toolPreview.value.Ref();
        screen := frame;
      }
    }

    /** Mousedown: commit a new glyph when a glyph is selected, else start a
        new line; hide the hint. The redo stack is kept, and the glyph branch
        leaves `drawing` as it was. Nothing is repainted. */
    method MouseDown(x: int, y: int)
      requires Valid()
      modifies this`drawing, this`currentLine, this`currentEmoji, this`lines, this`toolPreview
      ensures Valid()
      ensures |lines| == |old(lines)| + 1 && fresh(lines[|old(lines)|].Ref())
      ensures Doc() == old(Doc()).Push(lines[|old(lines)|])
      ensures toolPreview == None
      ensures Tools() == old(Tools()) && customEmojis == old(customEmojis) && screen == old(screen)
      ensures Truthy(currentEmojiString) ==>
        && currentEmoji != null && lines[|old(lines)|] == Stamp(currentEmoji)
        && currentEmoji.State() == Glyph(Point(x, y), currentEmojiString.value, currentRotation)
        && drawing == old(drawing) && currentLine == old(currentLine)
      ensures !Truthy(currentEmojiString) ==>
        && currentLine != null && lines[|old(lines)|] == Doodle(currentLine)
        && currentLine.State() == Path([Point(x, y)], currentThickness)
        && drawing && currentEmoji == old(currentEmoji)
    {
      var m;
      if Truthy(currentEmojiString) {
        currentEmoji := new Emoji(x, y, currentEmojiString.value, currentRotation);
        m := Stamp(currentEmoji);
      } else {
        drawing := true;
        currentLine := new DoodleLine(x, y, currentThickness);
        m := Doodle(currentLine);
      }
      Commit(m);
      toolPreview := None;
    }

    /** The `lines.push` of mousedown: a mark that is in neither stack joins
        the end of the display list. */
    method Commit(m: Mark)
      requires Valid() && m !in lines && m !in redoStack
      requires m.Doodle? ==> m.line.points != []
      modifies this`lines
      ensures Valid() && Doc() == old(Doc()).Push(m)
    {
      ghost var before := Doc();
      lines := lines + [m];
      DistinctPreserved(before, m);
    }

    /** Mouseup: stop dragging and repaint. */
    method MouseUp()
      requires Valid()
      modifies this`drawing, this`currentLine, this`currentEmoji, this`screen
      ensures Valid()
      ensures Pointer() == (false, null, null, old(toolPreview))
      ensures Doc() == old(Doc()) && Tools() == old(Tools()) && customEmojis == old(customEmojis)
      ensures screen == if hasContext then Frame(Snapshot(lines)) else old(screen)
    {
      drawing := false;
      currentLine := null;
      currentEmoji := null;
      DrawingChanged();
    }

    /** The branches of the mousemove handler: showing the hint, extending the
        line being drawn, moving the glyph just placed. */
    ghost predicate Previewing()
      reads this`drawing
    {
      !drawing && hasContext
    }

    ghost predicate DraggingLine()
      reads this`drawing, this`currentLine
    {
      drawing && currentLine != null
    }

    ghost predicate DraggingEmoji()
      reads this`drawing, this`currentLine, this`currentEmoji
    {
      !Previewing() && !DraggingLine() && currentEmoji != null
    }

    /** Mousemove. Idle with a context: show the hint at the pointer and
        repaint with it; the marks are untouched. Pressed on a line: extend it
        and repaint. Otherwise a placed glyph follows the pointer, but only
        without a context: a glyph press never sets `drawing`. */
    method MouseMove(x: int, y: int)
      requires Valid()
      modifies this`toolPreview, this`screen, currentLine, currentEmoji, PreviewRefs()
      ensures Valid()
      ensures Doc() == old(Doc()) && Tools() == old(Tools())
      ensures old(Previewing()) ==>
        && unchanged(MarkRefs(lines), MarkRefs(redoStack))
        && HintShown(old(toolPreview), old(Hint()), x, y)
        && screen == PreviewFrame(Snapshot(lines), toolPreview.value.State())
      ensures old(Previewing()) && old(toolPreview).None? ==> fresh(toolPreview.value.Ref())
      ensures !old(Previewing()) ==> toolPreview == old(toolPreview) && unchanged(PreviewRefs())
      ensures old(DraggingLine()) ==>
        && currentLine.points == old(currentLine.points) + [Point(x, y)]
        && currentLine.thickness == old(currentLine.thickness)
      ensures old(DraggingEmoji()) ==>
        Moved(old(currentEmoji.State()), currentEmoji.State(), Point(x, y))
      ensures old(DraggingLine()) || old(DraggingEmoji()) ==>
        screen == if hasContext then Frame(Snapshot(lines)) else old(screen)
      ensures !old(Previewing() || DraggingLine() || DraggingEmoji()) ==> screen == old(screen)
      ensures hasContext && currentEmoji != null ==> unchanged(currentEmoji)
      ensures old(DraggingLine()) && currentEmoji != null ==> unchanged(currentEmoji)
    {
      if !drawing && hasContext {
        ShowPreview(x, y);
      } else if drawing && currentLine != null {
        DragLine(x, y);
      } else if currentEmoji != null {
        DragEmoji(x, y);
      }
    }

    /** The last branch of mousemove: move the glyph just placed, then
        dispatch "drawing-changed". */
    method DragEmoji(x: int, y: int)
      requires Valid() && currentEmoji != null
      modifies currentEmoji, this`screen
      ensures Valid()
      ensures Moved(old(currentEmoji.State()), currentEmoji.State(), Point(x, y))
      ensures screen == if hasContext then Frame(Snapshot(lines)) else old(screen)
      ensures unchanged(PreviewRefs())
    {
      currentEmoji.Drag(x, y);
      DrawingChanged();
    }

    /** The pressed-on-a-line branch of mousemove: extend the line being
        drawn, then dispatch "drawing-changed". */
    method DragLine(x: int, y: int)
      requires Valid() && DraggingLine()
      modifies currentLine, this`screen
      ensures Valid()
      ensures currentLine.points == old(currentLine.points) + [Point(x, y)]
      ensures currentLine.thickness == old(currentLine.thickness)
      ensures screen == if hasContext then Frame(Snapshot(lines)) else old(screen)
      ensures unchanged(PreviewRefs()) && (currentEmoji != null ==> unchanged(currentEmoji))
    {
      currentLine.Drag(x, y);
      DrawingChanged();
    }

    /** After an idle mousemove to (x, y), given the hint before it: a new hint
        for the selected tool when there was none, else the same hint moved,
        whatever its kind. */
    ghost predicate HintShown(before: Option<Preview>, beforeHint: Option<Shape>, x: int, y: int)
      reads this`toolPreview, this`currentEmojiString, this`currentRotation, this`currentThickness, PreviewRefs()
    {
      && toolPreview.Some?
      && (before.None? ==>
            toolPreview.value.State() ==
              if Truthy(currentEmojiString) then Glyph(Point(x, y), currentEmojiString.value, currentRotation)
              else Circle(Point(x, y), currentThickness))
      && (before.Some? ==>
            toolPreview == before && beforeHint.Some? && Moved(beforeHint.value, toolPreview.value.State(), Point(x, y)))
    }

    /** The idle branch of mousemove: create or move the hint, then dispatch
        "tool-moved". */
    method ShowPreview(x: int, y: int)
      requires Valid() && hasContext
      modifies this`toolPreview, this`screen, PreviewRefs()
      ensures Valid()
      ensures HintShown(old(toolPreview), old(Hint()), x, y)
      ensures old(toolPreview).None? ==> fresh(toolPreview.value.Ref())
      ensures screen == PreviewFrame(Snapshot(lines), toolPreview.value.State())
      ensures unchanged(MarkRefs(lines), MarkRefs(redoStack))
      ensures currentEmoji != null ==> unchanged(currentEmoji)
    {
      ghost var before, beforeHint := toolPreview, Hint();
      PlaceHint(x, y);
      assert HintShown(before, beforeHint, x, y);
      assert this !in MarkRefs(lines) + MarkRefs(redoStack) && this !in PreviewRefs();
      ToolMoved();
      assert HintShown(before, beforeHint, x, y);
    }

    /** Create the hint for the selected tool at (x, y), or move the existing one. */
    method PlaceHint(x: int, y: int)
      requires Valid()
      modifies this`toolPreview, PreviewRefs()
      ensures Valid()
      ensures HintShown(old(toolPreview), old(Hint()), x, y)
      ensures old(toolPreview).None? ==> fresh(toolPreview.value.Ref())
      ensures unchanged(MarkRefs(lines), MarkRefs(redoStack))
      ensures currentEmoji != null ==> unchanged(currentEmoji)
    {
      if Truthy(currentEmojiString) {
        if toolPreview.None? {
          var p := new EmojiPreview(x, y, currentEmojiString.value, currentRotation);
          toolPreview := Some(Sticker(p));
        } else {
          assert toolPreview.value.Ref() !in MarkRefs(lines) + MarkRefs(redoStack);
          MovePreview(toolPreview.value, x, y);
        }
      } else {
        if toolPreview.None? {
          var p := new ToolPreview(x, y, currentThickness);
          toolPreview := Some(Ring(p));
        } else {
          assert toolPreview.value.Ref() !in MarkRefs(lines) + MarkRefs(redoStack);
          MovePreview(toolPreview.value, x, y);
        }
      }
    }

    /** The Clear button: empty the display list and the redo stack, repaint. */
    method Clear()
      requires Valid()
      modifies this`lines, this`redoStack, this`screen
      ensures Valid()
      ensures lines == [] && redoStack == []
      ensures Pointer() == old(Pointer()) && Tools() == old(Tools()) && customEmojis == old(customEmojis)
      ensures screen == if hasContext then Frame([]) else old(screen)
    {
      lines := [];
      redoStack := [];
      DrawingChanged();
    }

    /** The Undo button: move the last mark to the redo stack and repaint;
        with an empty display list, do nothing. */
    method Undo()
      requires Valid()
      modifies this`lines, this`redoStack, this`screen
      ensures Valid()
      ensures Doc() == old(Doc()).Undo()
      ensures screen == if old(lines) != [] && hasContext then Frame(Snapshot(lines)) else old(screen)
    {
      if |lines| > 0 {
        PopToRedo();
        DrawingChanged();
      }
    }

    /** The state change of Undo: the last mark leaves the display list for
        the top of the redo stack. */
    method PopToRedo()
      requires Valid() && lines != []
      modifies this`lines, this`redoStack
      ensures Valid() && Doc() == old(Doc()).Undo()
    {
      ghost var before := Doc();
      var lastLine := lines[|lines| - 1];
      assert forall m | m in lines[..|lines| - 1] :: m in lines;
      lines := lines[..|lines| - 1];
      redoStack := redoStack + [lastLine];
      DistinctPreserved(before, lastLine);
    }

    /** The Redo button: move the top of the redo stack back to the display
        list and repaint; with an empty redo stack, do nothing. */
    method Redo()
      requires Valid()
      modifies this`lines, this`redoStack, this`screen
      ensures Valid()
      ensures Doc() == old(Doc()).Redo()
      ensures screen == if old(redoStack) != [] && hasContext then Frame(Snapshot(lines)) else old(screen)
    {
      if |redoStack| > 0 {
        PopFromRedo();
        DrawingChanged();
      }
    }

    /** The state change of Redo: the top of the redo stack goes back to the
        end of the display list. */
    method PopFromRedo()
      requires Valid() && redoStack != []
      modifies this`lines, this`redoStack
      ensures Valid() && Doc() == old(Doc()).Redo()
    {
      ghost var before := Doc();
      var lastRedoLine := redoStack[|redoStack| - 1];
      assert forall m | m in redoStack[..|redoStack| - 1] :: m in redoStack;
      redoStack := redoStack[..|redoStack| - 1];
      lines := lines + [lastRedoLine];
      DistinctPreserved(before, lastRedoLine);
    }

    /** The "Thin Doodle" button. */
    method SelectThin()
      requires Valid()
      modifies this`currentThickness, this`currentEmojiString
      ensures Valid()
      ensures currentThickness == Thin && currentEmojiString == None
    {
      currentThickness := Thin;
      currentEmojiString := None;
    }

    /** The "Thick Doodle" button. */
    method SelectThick()
      requires Valid()
      modifies this`currentThickness, this`currentEmojiString
      ensures Valid()
      ensures currentThickness == Thick && currentEmojiString == None
    {
      currentThickness := Thick;
      currentEmojiString := None;
    }

    /** An emoji button: select its glyph (the pen thickness is kept) and
        repaint with the current hint, whatever kind it is. */
    method SelectEmoji(emoji: string)
      requires Valid()
      modifies this`currentEmojiString, this`screen
      ensures Valid()
      ensures currentEmojiString == Some(emoji)
      ensures screen ==
        if hasContext && toolPreview.Some? then PreviewFrame(Snapshot(lines), toolPreview.value.State())
        else old(screen)
    {
      currentEmojiString := Some(emoji);
      ToolMoved();
    }

    /** The rotation slider: remember the angle; a glyph hint turns to it and
        is repainted, a ring hint is left alone. */
    method SetRotation(degrees: int)
      requires Valid()
      modifies this`currentRotation, this`screen, PreviewRefs()
      ensures Valid()
      ensures currentRotation == degrees
      ensures toolPreview.Some? && toolPreview.value.Sticker? ==>
        && Turned(old(toolPreview.value.State()), toolPreview.value.State(), degrees)
        && screen == if hasContext then PreviewFrame(Snapshot(lines), toolPreview.value.State()) else old(screen)
      ensures !(toolPreview.Some? && toolPreview.value.Sticker?) ==> screen == old(screen) && unchanged(PreviewRefs())
    {
      currentRotation := degrees;
      if toolPreview.Some? && toolPreview.value.Sticker? {
        toolPreview.value.sticker.UpdateRotation(currentRotation);
        ToolMoved();
      }
    }

    /** The "Custom Emoji" button, given what the prompt returned: a non-empty
        answer becomes a new emoji button at the end. */
    method AddCustomEmoji(answer: Option<string>)
      requires Valid()
      modifies this`customEmojis
      ensures Valid()
      ensures EmojiChoices() == if Truthy(answer) then old(EmojiChoices()) + [answer.value] else old(EmojiChoices())
    {
      if Truthy(answer) {
        customEmojis := customEmojis + [answer.value];
      }
    }

    /** The Export button: replay the display list on a fresh 1024x1024
        canvas scaled 4x, or nothing when that canvas has no context. */
    method Export(exportContext: bool) returns (image: Option<seq<Cmd>>)
      ensures image == if exportContext then Some(ExportFrame(Snapshot(lines))) else None
    {
      if exportContext {
        var marks := DisplayAll(lines);
        image := Some([Scale(ExportScale, ExportScale), FillStyle(Background), FillRect(ExportSize, ExportSize)] + marks);
      } else {
        image := None;
      }
    }
  }
}
