# Paint on Python — a Dafny model

The program is a tkinter drawing window. A canvas takes freehand brush strokes, rectangles,
ovals and editable text labels. A toolbar chooses the colour, the brush size and the tool.
This project models the program's logic. The window layout and the Tk toolkit are not modelled.
The model has three parts.

- **Tool selection** (`tools.dfy`, module `Tools`). The four activity flags `brushActive`,
  `rectangleActive`, `circleActive` and `textActive` are fields of class `ToolState`. So are the
  colour, the brush size and the press anchors `(sx1, sy1)` and `(cx1, cy1)`. The fields change
  only through `change_active`, `color_change`, `brush_size_change` and `onclick`. The pure function
  `ChangeActiveSpec` states what `change_active` does to the flags. Lemmas over whole series of
  calls show that at most one flag is ever on, and that the last tool named wins.
- **Drawing dispatch** (`paint.dfy`, module `Paint`). Functions give the primitive that `paint`,
  `rectangle` and `circle` create. `print_sample_text` adds the placeholder text item. The
  callbacks `onclick`, `onrelease` and `onmotion` route a pointer position by the active tool.
  The canvas (`canvas.dfy`, class `Drawing.Canvas`) holds the primitives as a sequence.
  Shapes are only appended, text items are edited in place, and "Delete All" clears the sequence.
  In the program the highlight rectangle is a canvas item too; the model keeps it in a separate
  `highlight` field, outside that sequence.
- **The editable-text state machine** (`tk_text.dfy`, `text_edit.dfy`, class `Drawing.Text`).
  A text item is a record: position, content, insertion cursor and selection. The canvas holds
  the focused item (an index) and the one optional highlight rectangle. `tk_text.dfy` states how
  Tk's text-item operations treat indices:
  - `icursor` clamps into `[0, |content|]`, which is what keeps the cursor in range;
  - `dchars` deletes an inclusive range;
  - `insert` shifts the cursor past the new characters.

  `text_edit.dfy` builds each handler from those operations, in the order the handler calls
  them. The `Text` methods apply the handlers to the focused item under the `if item:` guard.
  They keep the canvas invariant `Canvas.Valid()`:
  - every text item's cursor and selection are in range;
  - only the focused item owns a selection;
  - a highlight exists exactly when an item has focus.

Values computed by Tk are method parameters:
- the rendered bounding box of a text item (`bbox`, an `Option<Box>`, because Tk can report none);
- the character index nearest a click (`"@x,y"`);
- the item under the pointer (`"current"`).

A selection is the half-open range `[start, end)`. Tk reports the same selection as `sel.first`
and an inclusive `sel.last`, which is `end - 1`, or |content| after a select-to-end; dchars
deletes the same characters either way. Colours are opaque strings. Coordinates are unbounded
integers, since the program only adds and subtracts small ones.

Three choices follow the code:
- The tools stay four flags, not an enumeration. Before any tool is chosen all four are off, so
  the proved property is "at most one is on", not "exactly one".
- Cursor movement past either end of the text is clamped, because Tk clamps every cursor index.
  The handlers do not need their own guard.
- `brush_size_change` accepts any integer. Stamp's contract is stated for any size, through the
  absolute value.

## Model

| member | source | states |
|---|---|---|
| Geometry.Normalize | main.py:145-149 | the stored box has ordered corners taken from the given ones (Tk reorders swapped corners) |
| Geometry.Expand | main.py:113-114 | the highlight box keeps the item's centre and is 2·4 wider and taller than the bbox |
| TkText.Icursor | main.py:44-46 | the cursor lands on the requested index when it is in range, else on 0 or on the end; the text is unchanged |
| TkText.Dchars | main.py:65-70 | deletes the clamped inclusive range first..last, and the cursor stays in front of the same character, or moves to first when that character was deleted |
| TkText.Insert | main.py:98 | the string is spliced in at the clamped index, the rest of the text is kept, and a cursor at or after it moves past the new characters |
| TkText.SelectAll | main.py:123-124 | the selection covers the whole text; text and cursor are kept |
| TextEdit.PrintableIff | main.py:93 | `event.char >= " "` holds exactly for non-empty strings starting at or above a space, so characters below a space (and the empty string of modifier keys) are ignored; DEL and every later character pass the guard and are inserted |
| TextEdit.DelPassesGuard | main.py:93 | DEL (U+007F) and a C1 control (U+0085) pass `event.char >= " "`; U+001F and the empty string do not |
| TextEdit.Left | main.py:40-47 | cursor becomes cursor-1, but never below 0; the text is unchanged and the selection cleared |
| TextEdit.Right | main.py:49-56 | cursor becomes cursor+1, but never past the end; the text is unchanged and the selection cleared |
| TextEdit.LeftRightInverse | main.py:40-56 | away from the ends Right undoes Left's cursor move and Left undoes Right's |
| TextEdit.Home | main.py:73-79 | the cursor is 0 and the selection cleared |
| TextEdit.End | main.py:81-87 | the cursor is the text's length and the selection cleared |
| TextEdit.SetCursor | main.py:127-136 | the cursor is the clicked index, clamped into the text; the selection is cleared |
| TextEdit.DeleteSelection | main.py:63-66 | the selected range is removed, the length drops by the selection's size, the cursor is shifted to match and the selection is cleared |
| TextEdit.TypeChar | main.py:89-98 | the selection is deleted first, then the typed string sits at the cursor: length is old - selection + typed, and the cursor ends just after the string |
| TextEdit.Backspace | main.py:58-71 | with a selection, it is removed and cleared; otherwise the one character before the cursor is removed and the cursor moves back; at 0 nothing changes |
| TextEdit.BackspaceAsWritten | main.py:68-70 | as written, with the cursor inside the text both the character before and the one after the cursor are removed |
| TextEdit.BackspaceUndoesTypeChar | main.py:58-98 | typing one character and pressing Backspace restores the item exactly |
| TextEdit.BackspaceAsWrittenDeletesTwo | main.py:68-70 | on "abc" with the cursor at 1 the code as written leaves "c", the intended behaviour "bc" |
| TextEdit.BackspaceAsWrittenBreaksUndo | main.py:68-70 | typing "X" into "abc" at 1 and pressing Backspace as written gives "ac", not "abc" |
| TextEdit.TypeCharExample | main.py:89-98 | "abc" with the cursor at 1 plus "X" gives "aXbc" with the cursor at 2 |
| TextEdit.BackspaceSelectionExample | main.py:62-66 | the selection [1, 3) of "abcd" is deleted to "ad", with the cursor at 1 |
| Drawing.Refreshed | main.py:101-115 | afterwards there is exactly one highlight: the bbox grown by 4 on every side, or the old or new (0,0,0,0) rectangle when Tk gives no bbox |
| Drawing.Canvas.constructor | main.py:192-195 | the canvas starts empty, with no focus and no highlight |
| Drawing.Canvas.CreateOval | main.py:149 | appends exactly one oval and changes nothing else |
| Drawing.Canvas.CreateRectangle | main.py:203 | appends exactly one rectangle and changes nothing else |
| Drawing.Canvas.CreateText | main.py:139 | appends one text item with cursor 0 and no selection |
| Drawing.Canvas.DeleteAll | main.py:262 | the primitive sequence is empty; focus, selection and highlight are gone |
| Drawing.Text.constructor | main.py:19-31 | the editor keeps the canvas it was given; its tag bindings are event wiring |
| Drawing.Text.DoReturn | main.py:33-38 | focus and highlight are removed and no item keeps a selection; the text is unchanged |
| Drawing.Text.DoLeft | main.py:40-47 | without focus nothing changes; otherwise only the focused item changes, to Left of it |
| Drawing.Text.DoRight | main.py:49-56 | without focus nothing changes; otherwise only the focused item changes, to Right of it |
| Drawing.Text.DoBackspace | main.py:58-71 | without focus nothing changes; otherwise the focused item becomes Backspace of it and the highlight is refreshed |
| Drawing.Text.DoHome | main.py:73-79 | without focus nothing changes; otherwise only the focused item changes, to Home of it |
| Drawing.Text.DoEnd | main.py:81-87 | without focus nothing changes; otherwise only the focused item changes, to End of it |
| Drawing.Text.DoKey | main.py:89-99 | without focus, for a character below a space or for the empty string of a modifier key nothing changes (DEL and every later character pass the guard); otherwise the focused item becomes TypeChar of it and the highlight is refreshed |
| Drawing.Text.Highlight | main.py:101-115 | the single highlight rectangle becomes Refreshed of the old one and the bbox |
| Drawing.Text.SetFocus | main.py:117-125 | on a text item: it gets the focus and a select-all, every other item loses its selection, and the highlight moves to it; on anything else nothing changes |
| Drawing.Text.SetCursor | main.py:127-136 | without focus nothing changes; otherwise only the focused item changes, to SetCursor of it |
| Drawing.Text.CreateText | main.py:138-139 | appends one editable text item at (x, y) and changes nothing else |
| Tools.Only | main.py:168-187 | the flags of a chosen tool: that tool on, exactly one on |
| Tools.ChangeActiveSpec | main.py:163-189 | a tool name leaves exactly that flag on and the other three off; any other string changes no flag; at most one on is preserved |
| Tools.AtMostOneAfterCalls | main.py:163-189 | from at most one flag on (e.g. the initial all-off), no series of change_active calls turns on two |
| Tools.LastNamedToolWins | main.py:163-189 | after a series of calls, exactly the last tool named is active |
| Tools.UnnamedCallsChangeNothing | main.py:188-189 | calls naming no tool leave the flags as they were |
| Tools.ToolState.constructor | main.py:5-15 | no tool active, colour black, brush size 3, no anchors recorded |
| Tools.ToolState.ChangeActive | main.py:163-189 | the flags become ChangeActiveSpec of the old ones; colour, size and anchors are unchanged |
| Tools.ToolState.ColorChange | main.py:157-160 | the brush is the only active tool and the colour is the new one; size and anchors are unchanged |
| Tools.ToolState.BrushSizeChange | main.py:152-154 | the brush size is the new one and nothing else changes |
| Paint.Stamp | main.py:142-149 | the brush oval spans x-r..x+r by y-r..y+r (r = the brush size, up to sign), with fill and outline the current colour |
| Paint.StampSpan | main.py:145-149 | for a non-negative size the stamp is the square of half-side r centred on the pointer |
| Paint.RectangleShape | main.py:198-203 | the rectangle spans the press and release points, outlined in the colour at the brush size |
| Paint.OvalShape | main.py:206-211 | the oval's box spans the press and release points, outlined in the colour at the brush size, unfilled |
| Paint.ShapesIgnoreDragDirection | main.py:198-211 | dragging either way between two points gives the same region |
| Paint.PaintAt | main.py:142-149 | appends exactly one brush stamp at the pointer |
| Paint.DrawRectangle | main.py:198-203 | appends one rectangle from (sx1, sy1); nothing when no anchor was recorded |
| Paint.DrawCircle | main.py:206-211 | appends one oval from (cx1, cy1); nothing when no anchor was recorded |
| Paint.PrintSampleText | main.py:214-215 | appends one "You can edit me :)" text item at the click point |
| Paint.OnClick | main.py:218-233 | the rectangle tool records (sx1, sy1), else the oval tool records (cx1, cy1), else the text tool adds the placeholder item; otherwise nothing; flags, colour and size never change |
| Paint.OnRelease | main.py:236-244 | the rectangle tool, else the oval tool, appends its shape from its anchor to the release point; otherwise nothing |
| Paint.OnMotion | main.py:247-250 | a brush stamp is appended exactly when the brush is active |
| Paint.TextToolSession | main.py:218-233 | choosing the text tool, clicking at (x, y), focusing the new item (set_focus, main.py:117-125) and pressing Enter (do_return, main.py:33-38) leaves exactly one placeholder item at (x, y), unfocused, unselected and with no highlight, and leaves the text tool as the only active one with colour and size as they started |
| Paint.PressRelease | main.py:218-244 | a press then a release with the rectangle or oval tool appends exactly one shape from the press to the release point; with no tool nothing is appended |

## Left out

- Window, toolbar buttons, `grid` layout, the canvas size and `root.mainloop()` are GUI plumbing. The toolbar's fixed colours and sizes enter only as arguments to `ColorChange` and `BrushSizeChange`.
- Event binding (`bind`, `tag_bind`) and Tk's routing of key events to the focused item are not modelled. Each handler is a method that can be called at any time.
- Tk's font metrics (`bbox`), the nearest-character lookup (`"@x,y"`), `canvasx`/`canvasy`, the item under the pointer (`"current"`) and `focus_set` are not modelled. Their results are parameters.
- The highlight's paint order (`lower`, just behind the text item) and its styling (`fill="white"`, `outline="blue"`, `dash`) are not modelled. Z-order is not modelled at all.
- The `print("Choose tool first.")` diagnostic for an unknown tool name is console output, so it is not modelled.
- Tk's selection anchor (`select from`) is not modelled. `Dchars` leaves the selection unchanged; Tk would shift it, but every caller here clears it right after.
- `Drawing.Text.DoBackspace` follows the corrected handler (see Findings). The as-written behaviour is `TextEdit.BackspaceAsWritten`.
- When Tk reports no bounding box, the source's `bbox[0]` raises after the rectangle was created. The model keeps the created or old rectangle and ends the handler.
- A release before any press with the rectangle or oval tool reads an undefined anchor. The source raises NameError and draws nothing; the model draws nothing.
- Each `print_sample_text` builds a new editor object whose constructor re-binds the same handlers. Only the text item it creates is modelled.

## Findings

| source | as written | input that shows it | evidently intended | confidence | as-written member | corrected member |
|---|---|---|---|---|---|---|
| main.py:68-70 | `dchars(item, insert - 1, insert)`; Tk's dchars range is inclusive, so Backspace removes the character before the cursor and the one after it | text "abc", cursor 1, no selection: the result is "c" | remove only the character before the cursor, `dchars(item, insert - 1)`, giving "bc" | not executed; rests on Tk's documented inclusive dchars range | TextEdit.BackspaceAsWritten | TextEdit.Backspace |
