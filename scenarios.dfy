/** Client code that drives the editor through handler calls and relies only
    on their contracts. */
module Scenarios {
  import opened Js
  import opened Canvas
  import opened Marks
  import opened Sketchpad

  /** Draw a line A, stamp a glyph B, then Undo and Redo. */
  method UndoThenRedo()
  {
    var ed := new Editor(false);
    ed.MouseDown(0, 0);
    ed.MouseUp();
    var a := ed.lines[0];
    assert ed.lines == [a] && ed.redoStack == [];
    ed.SelectEmoji("★");
    assert ed.lines == [a] && ed.redoStack == [];
    ed.MouseDown(20, 20);
    var b := ed.lines[1];
    assert ed.lines == [a, b] && ed.redoStack == [];
    assert b.State() == Glyph(Point(20, 20), "★", 0);
    ed.Undo();
    assert ed.lines == [a] && ed.redoStack == [b];
    ed.Redo();
    assert ed.lines == [a, b] && ed.redoStack == [];
  }

  /** After Clear, Undo and Redo have nothing to move. */
  method ClearEmptiesHistory()
  {
    var ed := new Editor(false);
    ed.MouseDown(0, 0);
    ed.MouseUp();
    ed.MouseDown(3, 3);
    ed.Undo();
    ed.Clear();
    assert ed.lines == [] && ed.redoStack == [];
    ed.Undo();
    ed.Redo();
    assert ed.lines == [] && ed.redoStack == [];
  }

  /** With a context: the first idle move creates a ring hint; after a glyph
      is selected the next move only moves that ring, whose kind is kept. */
  method HintKeepsItsKind()
  {
    var ed := new Editor(true);
    ed.MouseMove(2, 2);
    assert ed.toolPreview.Some? && ed.toolPreview.value.State() == Circle(Point(2, 2), Thin);
    ed.SelectEmoji("★");
    ed.MouseMove(4, 4);
    assert ed.toolPreview.value.Ring?;
    assert ed.toolPreview.value.State() == Circle(Point(4, 4), Thin);
  }
}
