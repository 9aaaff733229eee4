# Sick SketchPad: the drawing-document model

This project models the drawing core of the sketchpad page in `src/main.ts`:

- **Marks.** The freehand lines (`DoodleLine`) and placed glyphs (`Emoji`) that make up the display list. Each is an object whose fields change in place while the pointer drags it.
- **Tool hints.** The pen's ring (`ToolPreview`) and the sticker's glyph (`EmojiPreview`) that follow the pointer while the mouse is up.
- **History.** The display list `lines` and the `redoStack`, with the Clear, Undo and Redo buttons.
- **Pointer handlers.** The mousedown, mousemove and mouseup handlers, as a state machine over `drawing`, `currentLine`, `currentEmoji` and `toolPreview`.
- **Tool selection.** The thin and thick pen buttons, the emoji buttons, the "Custom Emoji" button and the rotation slider.
- **Repaints.** The two repaint observers ("drawing-changed" and "tool-moved") and the Export button's replay of the display list on a 4x canvas.

How the pieces fit together:

- **Classes for what changes in place.** The four drawable classes are Dafny classes with the same fields and methods. The page's module-level `let` variables become the fields of one `Sketchpad.Editor` object, and each handler is a method on it.
- **Unions as datatypes.** The TypeScript unions `DoodleLine | Emoji` and `ToolPreview | EmojiPreview` become the datatypes `Mark` and `Preview`, which hold the object references.
- **Canvas calls as data.** A canvas call is a `Canvas.Cmd` value. A repaint is the sequence of calls it makes. `Editor.screen` holds the calls of the last repaint.
- **Specifications as values.** `Marks.Shape` is what an object looks like at one moment. `Marks.Draw` says which calls display a shape, and `Render.Frame`, `Render.PreviewFrame` and `Render.ExportFrame` say which calls each repaint makes. Every `display` method and repaint is proved against these functions.
- **History as a value.** `History.History` is the display list and redo stack as values. Undo and Redo keep its timeline: the display list, then the redo stack read from its top down.
- **`Valid()`.** The editor keeps this invariant through every handler:
  - `drawing` holds exactly while a line is being drawn;
  - every line holds a point;
  - no mark sits twice in the timeline.

Two behaviours of the code are modelled as written:

- **Mousedown keeps the redo stack.** A Redo after new drawing therefore puts the undone mark back after the new one (`History.RedoAfterPush`, with `Editor.MouseDown`'s `Push` contract).
- **The glyph branch of mousedown never sets `drawing`.** With `Valid()`, the branch of mousemove that drags a placed glyph can therefore run only when the canvas has no 2D context (`Editor.MouseMove`).

Other behaviours a reader might not expect, all modelled as the code does them:

- Export does not `clearRect` its canvas; the canvas is new, and the background fill covers it (`Render.ExportFrame`).
- Mouseup does not rebuild the hint. Mousedown drops it, and the next idle mousemove creates it again (`Editor.MouseUp` leaves `toolPreview` alone).
- A tool switch does not replace an existing hint. The next move only moves it, whatever its kind, so a ring can follow the pointer while a glyph is selected (`Editor.HintShown`).
- The emoji buttons repaint with the current hint, and so does the rotation slider when the hint is a glyph (`Editor.SelectEmoji`, `Editor.SetRotation`).

## Model

| member | source | states |
|---|---|---|
| Marks.DoodleLine.constructor | src/main.ts:34-37 | a new line holds exactly the press point and the given pen thickness |
| Marks.DoodleLine.Drag | src/main.ts:39-41 | dragging appends exactly the pointer position at the end of the point list; the thickness is kept |
| Marks.Segments | src/main.ts:48-50 | one lineTo per point, in point order |
| Marks.DoodleLine.Display | src/main.ts:43-53 | the loop issues `Draw` of the line's current shape: nothing for an empty line, else beginPath, lineWidth, moveTo the first point, a lineTo for every point in order (the first included), stroke |
| Marks.ToolPreview.constructor | src/main.ts:62-66 | the ring hint starts at the pointer with the pen's thickness |
| Marks.ToolPreview.UpdatePosition | src/main.ts:68-71 | moves the ring to the pointer; its thickness is kept |
| Marks.ToolPreview.Display | src/main.ts:73-77 | issues `Draw` of the ring: beginPath, an arc of radius half the thickness at its position, stroke |
| Marks.EmojiPreview.constructor | src/main.ts:87-92 | the glyph hint starts at the pointer with the selected glyph and rotation |
| Marks.EmojiPreview.UpdatePosition | src/main.ts:94-97 | moves the glyph hint; its glyph and rotation are kept |
| Marks.EmojiPreview.UpdateRotation | src/main.ts:99-101 | turns the glyph hint; its position and glyph are kept |
| Marks.EmojiPreview.Display | src/main.ts:103-110 | issues `Draw` of the glyph: save, translate, rotate, font, fillText, restore |
| Marks.Emoji.constructor | src/main.ts:120-125 | a placed glyph starts at the press point with the selected glyph and rotation |
| Marks.Emoji.Drag | src/main.ts:127-130 | moves the glyph to the pointer; glyph and rotation never change |
| Marks.Emoji.Display | src/main.ts:132-139 | issues `Draw` of the placed glyph, inside a save()/restore() pair |
| Marks.Mark.State | src/main.ts:144 | a mark of the display list is never drawn as a ring; it is a path exactly when it is a `DoodleLine` |
| Marks.Preview.State | src/main.ts:149 | the hint is a ring exactly when it is a `ToolPreview`, else a glyph |
| Marks.DisplayMark | src/main.ts:244-246 | `line.display(ctx)` on a mark issues `Draw` of that mark's current shape, whichever class it is |
| Marks.DisplayPreview | src/main.ts:259 | `toolPreview.display(ctx)` issues `Draw` of the hint's current shape |
| Marks.MovePreview | src/main.ts:214-226 | `toolPreview.updatePosition` on either hint class moves it to the pointer and keeps everything else, including its kind |
| Marks.DrawLeavesNoTransform | src/main.ts:103-110 | displaying any shape hands the context back with the transform it was given: translate and rotate sit inside balanced save()/restore() |
| Marks.GlyphLeavesNoTransform | src/main.ts:132-139 | the save depth after each of a glyph's six calls is 1 from the save() until the restore(), which brings it back to 0, so translate and rotate run only inside that pair |
| Marks.ArcOnlyFromRing | src/main.ts:73-77 | only a ring issues an arc: lines and glyphs never do |
| Render.DisplayAll | src/main.ts:244-246 | the `for (const line of lines)` loop issues exactly `DrawAll` of the display list's current shapes, in list order |
| Render.Paint | src/main.ts:251-260 | a repaint issues clear, white background, every mark in order, then the hint when there is one |
| Render.DrawAllSnoc | src/main.ts:244-246 | one more mark at the end of the list appends exactly its calls |
| Render.DrawAllAppend | src/main.ts:244-246 | displaying a list in two parts is displaying the first part, then the second |
| Render.FrameOfAppend | src/main.ts:239-246 | later marks are drawn over earlier ones: adding a mark at the end adds its calls at the end of the repaint |
| Render.DrawAllLeavesNoTransform | src/main.ts:244-246 | displaying any display list leaves the context's transform as it was |
| Render.FramesLeaveNoTransform | src/main.ts:239-261 | both repaints, with or without a hint, leave the context's transform as it was |
| Render.DrawAllWithoutRing | src/main.ts:382-384 | a list with no ring in it issues no arc |
| Render.ExportMatchesScreen | src/main.ts:373-384 | the export draws the same marks in the same order as the on-screen repaint, and never an arc: the pen's ring hint is never exported |
| History.History.Undo | src/main.ts:276-284 | Undo keeps the timeline and shortens the display list by one; with an empty display list it changes nothing |
| History.History.Redo | src/main.ts:290-298 | Redo keeps the timeline and lengthens the display list by one; with an empty redo stack it changes nothing |
| History.TimelineDetermines | src/main.ts:276-298 | two histories with the same timeline and the same display-list length are equal, so the contracts of Undo and Redo fix their results |
| History.UndoThenRedo | src/main.ts:276-298 | Undo then Redo restores both stacks exactly |
| History.RedoThenUndo | src/main.ts:276-298 | Redo then Undo restores both stacks exactly |
| History.UndoTimesMovesSuffix | src/main.ts:276-284 | k Undos, k at most the list length, leave the first n-k marks and push the last k onto the redo stack in reverse order |
| History.SuffixedStep | src/main.ts:276-284 | one Undo then k-1 more moves the same suffix as k at once |
| History.RedoAfterPush | src/main.ts:175-195 | a new mark keeps the redo stack, so a following Redo appends the undone mark after the new one |
| History.DistinctPreserved | src/main.ts:276-298 | Undo, Redo and adding a mark found in neither stack keep every mark in at most one place of the timeline |
| Sketchpad.Editor.constructor | src/main.ts:143-155 | page load (with the background fill of src/main.ts:22-27): thin pen, no glyph, rotation 0, nothing drawn, no hint, an empty history, the canvas filled white when it has a context; the invariant holds |
| Sketchpad.Editor.DrawingChanged | src/main.ts:239-248 | with a context the screen becomes exactly the repaint of the display list's current shapes; without one it is untouched |
| Sketchpad.Editor.ToolMoved | src/main.ts:251-261 | only with a context and a hint, the screen becomes the repaint of the marks with the hint on top |
| Sketchpad.Editor.MouseDown | src/main.ts:175-195 | adds exactly one fresh mark at the end of the display list and keeps the redo stack; the mark is a glyph with the selected glyph and rotation when a glyph is selected, with `drawing` left as it was, else a one-point line of the current thickness with `drawing` set; the hint is gone; the tools and the screen are unchanged |
| Sketchpad.Editor.Commit | src/main.ts:183 | `lines.push` of a mark in neither stack is the history's `Push` and keeps the invariant |
| Sketchpad.Editor.MouseUp | src/main.ts:197-202 | no line or glyph is being dragged and `drawing` is false; the history and tools are kept; the display list is repainted |
| Sketchpad.Editor.MouseMove | src/main.ts:204-236 | idle with a context: the marks and history are untouched, the hint is created for the selected tool as a new object or moved, and the screen shows it on top; pressed on a line: that line grows by the pointer position and is repainted, and a glyph placed earlier stays where it is; otherwise a placed glyph follows the pointer, which with a context never happens to a glyph that exists |
| Sketchpad.Editor.ShowPreview | src/main.ts:205-228 | the idle branch shows the hint at the pointer, repaints with it on top, and touches no mark |
| Sketchpad.Editor.PlaceHint | src/main.ts:206-227 | creates a fresh hint for the selected tool or moves the existing one; no mark changes |
| Sketchpad.Editor.DragLine | src/main.ts:229-231 | the line being drawn gains exactly the pointer position at its end, keeps its thickness, and is repainted |
| Sketchpad.Editor.DragEmoji | src/main.ts:232-234 | the glyph just placed moves to the pointer and is repainted |
| Sketchpad.Editor.Clear | src/main.ts:266-270 | both stacks are empty whatever they held; the pointer and tool state are kept; the empty document is repainted |
| Sketchpad.Editor.Undo | src/main.ts:276-284 | the history becomes its `Undo`; repaint only when the display list was non-empty |
| Sketchpad.Editor.PopToRedo | src/main.ts:277-281 | the last mark moves to the top of the redo stack and the invariant is kept |
| Sketchpad.Editor.Redo | src/main.ts:290-298 | the history becomes its `Redo`; repaint only when the redo stack was non-empty |
| Sketchpad.Editor.PopFromRedo | src/main.ts:291-295 | the top of the redo stack moves back to the end of the display list and the invariant is kept |
| Sketchpad.Editor.SelectThin | src/main.ts:305-311 | thickness 2 and no glyph selected |
| Sketchpad.Editor.SelectThick | src/main.ts:317-323 | thickness 8 and no glyph selected |
| Sketchpad.Editor.SelectEmoji | src/main.ts:161-170 | the button's glyph is selected, the thickness is kept, and the screen is repainted with the current hint if any |
| Sketchpad.Editor.SetRotation | src/main.ts:354-360 | the rotation is stored; a glyph hint turns to it in place and is repainted, while a ring hint and the screen are left alone |
| Sketchpad.Editor.AddCustomEmoji | src/main.ts:337-345 | a non-empty answer becomes a new glyph button after all others; `null` or an empty answer adds nothing |
| Sketchpad.Editor.Export | src/main.ts:366-385 | with an export context, the image is the scale, the white 1024x1024 fill and every mark in order, with no hint; without one there is no image |

## Left out

- Building the page: the title, the buttons, `classList` highlighting and appending to `app` (src/main.ts:5-20, 158-172, 301-361). These are DOM wiring. The emoji buttons appear only as the list of glyphs they select (`Editor.EmojiChoices`).
- The custom event bus. `dispatchEvent` of "drawing-changed" and "tool-moved" is a direct call of `Editor.DrawingChanged` or `Editor.ToolMoved`.
- Pixels and floating point:
  - the canvas calls are recorded, not rasterised;
  - `rotate` keeps the angle in degrees rather than `degrees * PI / 180` radians;
  - the arc's angle range `0..2*PI` is not kept;
  - pointer positions are integers rather than JavaScript numbers.
- The arguments the source passes as constants are not kept:
  - the origin of `clearRect`, `fillRect` and `fillText`.
- Whether a 2D context exists:
  - for the on-screen canvas it is fixed when the page loads (`Editor.hasContext`);
  - for the export canvas it is a parameter of `Editor.Export`.
- Export's `toBlob`, object URL and download link (src/main.ts:387-396). This is file I/O. `Editor.Export` returns the calls made on the export canvas.
- The `prompt` dialog (src/main.ts:338). `Editor.AddCustomEmoji` takes its answer as a parameter.
- `parseInt` of the slider's value (src/main.ts:355). `Editor.SetRotation` takes the integer. The slider's 0..360 range is not required of it, so the contract covers every integer.
- Editor.Undo, Editor.Redo: the source's `if (lastLine)` and `if (lastRedoLine)` guards are not modelled, because a popped mark is an object and always truthy.
