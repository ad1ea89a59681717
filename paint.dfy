/**
 * The drawing operations paint, rectangle, circle and print_sample_text, and the three canvas
 * mouse callbacks onclick (button press), onrelease (button release) and onmotion (drag with
 * the button held) that route a pointer position to them according to the active tool.
 */
module Paint {
  import opened Wrappers
  import opened Geometry
  import opened TkText
  import opened Drawing
  import opened Tools

  /** The text every new text item starts with. */
  const SampleText := "You can edit me :)"

  /** Tk's default outline width, which the brush stamp does not override. */
  const DefaultWidth := 1

  function Abs(n: int): nat { if n < 0 then -n else n }

  /**
   * The oval `paint` creates at (x, y): corners (x - size, y + size) and (x + size, y - size),
   * filled and outlined in the current colour.
   */
  function Stamp(x: int, y: int, size: int, color: string): (p: Primitive)
    ensures p.Oval? && p.fill == Some(color) && p.outline == color && p.width == DefaultWidth
    ensures Normalize(p.box) == Box(x - Abs(size), y - Abs(size), x + Abs(size), y + Abs(size))
  {
    Oval(Box(x - size, y + size, x + size, y - size), Some(color), color, DefaultWidth)
  }

  /** A brush stamp is centred on the pointer: it spans x-r..x+r and y-r..y+r for r = the brush size. */
  lemma StampSpan(x: int, y: int, size: nat, color: string)
    ensures var b := Normalize(Stamp(x, y, size, color).box);
      b.x1 == x - size && b.x2 == x + size && b.y1 == y - size && b.y2 == y + size &&
      b.x1 + b.x2 == 2 * x && b.y1 + b.y2 == 2 * y
  {
  }

  /** The rectangle `rectangle(x, y)` draws from the anchor (sx1, sy1): outlined, unfilled. */
  function RectangleShape(anchor: (int, int), x: int, y: int, color: string, width: int): (p: Primitive)
    ensures p.Rectangle? && p.outline == color && p.width == width
    ensures Normalize(p.box) == Box(Min(anchor.0, x), Min(anchor.1, y), Max(anchor.0, x), Max(anchor.1, y))
  {
    Rectangle(Box(anchor.0, anchor.1, x, y), color, width)
  }

  /** The oval `circle(x, y)` draws inside the box from the anchor (cx1, cy1): outlined, unfilled. */
  function OvalShape(anchor: (int, int), x: int, y: int, color: string, width: int): (p: Primitive)
    ensures p.Oval? && p.fill == None && p.outline == color && p.width == width
    ensures Normalize(p.box) == Box(Min(anchor.0, x), Min(anchor.1, y), Max(anchor.0, x), Max(anchor.1, y))
  {
    Oval(Box(anchor.0, anchor.1, x, y), None, color, width)
  }

  /** Dragging from A to B or from B to A covers the same region, for both shapes. */
  lemma ShapesIgnoreDragDirection(ax: int, ay: int, rx: int, ry: int, color: string, width: int)
    ensures Normalize(RectangleShape((ax, ay), rx, ry, color, width).box) ==
            Normalize(RectangleShape((rx, ry), ax, ay, color, width).box)
    ensures Normalize(OvalShape((ax, ay), rx, ry, color, width).box) ==
            Normalize(OvalShape((rx, ry), ax, ay, color, width).box)
  {
  }

  /** paint(event): stamp one brush oval at the pointer. */
  method PaintAt(s: ToolState, c: Canvas, x: int, y: int)
    requires c.Valid()
    modifies c
    ensures c.Valid()
    ensures c.items == old(c.items) + [Stamp(x, y, s.brushSize, s.color)]
    ensures c.focus == old(c.focus) && c.highlight == old(c.highlight)
  {
    c.CreateOval(Box(x - s.brushSize, y + s.brushSize, x + s.brushSize, y - s.brushSize),
                 Some(s.color), s.color, DefaultWidth);
  }

  /**
   * rectangle(x, y): a rectangle from (sx1, sy1) to (x, y). Before any press with the rectangle
   * tool sx1 is undefined, the callback fails with a NameError and nothing is drawn.
   */
  method DrawRectangle(s: ToolState, c: Canvas, x: int, y: int)
    requires c.Valid()
    modifies c
    ensures c.Valid()
    ensures s.rectStart.None? ==> unchanged(c)
    ensures s.rectStart.Some? ==>
      c.items == old(c.items) + [RectangleShape(s.rectStart.value, x, y, s.color, s.brushSize)]
    ensures c.focus == old(c.focus) && c.highlight == old(c.highlight)
  {
    if s.rectStart.Some? {
      var (sx1, sy1) := s.rectStart.value;
      c.CreateRectangle(Box(sx1, sy1, x, y), s.color, s.brushSize);
    }
  }

  /** circle(x, y): an oval from (cx1, cy1) to (x, y); nothing (a NameError) before any oval press. */
  method DrawCircle(s: ToolState, c: Canvas, x: int, y: int)
    requires c.Valid()
    modifies c
    ensures c.Valid()
    ensures s.ovalStart.None? ==> unchanged(c)
    ensures s.ovalStart.Some? ==>
      c.items == old(c.items) + [OvalShape(s.ovalStart.value, x, y, s.color, s.brushSize)]
    ensures c.focus == old(c.focus) && c.highlight == old(c.highlight)
  {
    if s.ovalStart.Some? {
      var (cx1, cy1) := s.ovalStart.value;
      c.CreateOval(Box(cx1, cy1, x, y), None, s.color, s.brushSize);
    }
  }

  /** print_sample_text(x, y): a fresh editor object creates the placeholder text item at (x, y). */
  method PrintSampleText(c: Canvas, x: int, y: int)
    requires c.Valid()
    modifies c
    ensures c.Valid()
    ensures c.items == old(c.items) + [TextLabel(TextItem(x, y, SampleText, 0, None))]
    ensures c.focus == old(c.focus) && c.highlight == old(c.highlight)
  {
    var editor := new Text(c);
    editor.CreateText(x, y, SampleText);
  }

  /**
   * onclick: the rectangle tool records (sx1, sy1), the oval tool (cx1, cy1), the text tool
   * places a text item; the brush or no tool does nothing. The tools are tried in that order.
   */
  method OnClick(s: ToolState, c: Canvas, x: int, y: int)
    requires c.Valid()
    modifies s, c
    ensures c.Valid()
    ensures s.ActiveFlags() == old(s.ActiveFlags()) && s.color == old(s.color) && s.brushSize == old(s.brushSize)
    ensures old(s.rectangleActive) ==>
      s.rectStart == Some((x, y)) && s.ovalStart == old(s.ovalStart) && unchanged(c)
    ensures !old(s.rectangleActive) && old(s.circleActive) ==>
      s.ovalStart == Some((x, y)) && s.rectStart == old(s.rectStart) && unchanged(c)
    ensures !old(s.rectangleActive) && !old(s.circleActive) ==>
      s.rectStart == old(s.rectStart) && s.ovalStart == old(s.ovalStart)
    ensures !old(s.rectangleActive) && !old(s.circleActive) && old(s.textActive) ==>
      c.items == old(c.items) + [TextLabel(TextItem(x, y, SampleText, 0, None))] &&
      c.focus == old(c.focus) && c.highlight == old(c.highlight)
    ensures !old(s.rectangleActive) && !old(s.circleActive) && !old(s.textActive) ==> unchanged(c)
  {
    if s.rectangleActive {
      s.rectStart := Some((x, y));
    } else if s.circleActive {
      s.ovalStart := Some((x, y));
    } else if s.textActive {
      PrintSampleText(c, x, y);
    }
  }

  /** onrelease: the rectangle tool, else the oval tool, commits its shape to the release point. */
  method OnRelease(s: ToolState, c: Canvas, x: int, y: int)
    requires c.Valid()
    modifies c
    ensures c.Valid()
    ensures c.focus == old(c.focus) && c.highlight == old(c.highlight)
    ensures s.rectangleActive && s.rectStart.Some? ==>
      c.items == old(c.items) + [RectangleShape(s.rectStart.value, x, y, s.color, s.brushSize)]
    ensures !s.rectangleActive && s.circleActive && s.ovalStart.Some? ==>
      c.items == old(c.items) + [OvalShape(s.ovalStart.value, x, y, s.color, s.brushSize)]
    ensures ((s.rectangleActive && s.rectStart.None?) ||
             (!s.rectangleActive && s.circleActive && s.ovalStart.None?) ||
             (!s.rectangleActive && !s.circleActive)) ==> unchanged(c)
  {
    if s.rectangleActive {
      DrawRectangle(s, c, x, y);
    } else if s.circleActive {
      DrawCircle(s, c, x, y);
    }
  }

  /** onmotion: while the brush is active every drag position gets one stamp; otherwise nothing. */
  method OnMotion(s: ToolState, c: Canvas, x: int, y: int)
    requires c.Valid()
    modifies c
    ensures c.Valid()
    ensures c.focus == old(c.focus) && c.highlight == old(c.highlight)
    ensures s.brushActive ==> c.items == old(c.items) + [Stamp(x, y, s.brushSize, s.color)]
    ensures !s.brushActive ==> unchanged(c)
  {
    if s.brushActive {
      PaintAt(s, c, x, y);
    }
  }

  /** A press then a release with the rectangle or oval tool adds exactly one shape, anchor to release point. */
  method PressRelease(s: ToolState, c: Canvas, px: int, py: int, rx: int, ry: int)
    requires c.Valid() && s.Valid()
    modifies s, c
    ensures c.Valid() && s.Valid()
    ensures old(s.rectangleActive) ==>
      c.items == old(c.items) + [RectangleShape((px, py), rx, ry, s.color, s.brushSize)]
    ensures old(s.circleActive) ==>
      c.items == old(c.items) + [OvalShape((px, py), rx, ry, s.color, s.brushSize)]
    ensures !old(s.rectangleActive) && !old(s.circleActive) && !old(s.textActive) ==> c.items == old(c.items)
  {
    OnClick(s, c, px, py);
    OnRelease(s, c, rx, ry);
  }
  /**
   * The text tool end to end: choose it, click at (x, y), give the new item focus, press Enter.
   * One placeholder item exists at (x, y), the tool state is untouched, and the item ends up
   * unfocused, unselected and without a highlight.
   */
  method TextToolSession(x: int, y: int, bbox: Box)
    returns (items: seq<Primitive>, focus: Option<nat>, highlight: Option<Box>,
             flags: Flags, color: string, brushSize: int)
    ensures items == [TextLabel(TextItem(x, y, SampleText, 0, None))]
    ensures focus == None && highlight == None
    ensures flags == Only(TextTool) && color == "black" && brushSize == 3
  {
    var s := new ToolState();
    var c := new Canvas();
    s.ChangeActive("text");
    OnClick(s, c, x, y);
    assert c.items == [TextLabel(TextItem(x, y, SampleText, 0, None))];
    assert s.ActiveFlags() == Only(TextTool) && s.color == "black" && s.brushSize == 3;
    var editor := new Text(c);
    editor.SetFocus(Some(0), Some(bbox));
    assert c.focus == Some(0) && c.highlight == Some(Expand(bbox, HighlightMargin));
    assert c.items[0].item.selection == Some(Range(0, |SampleText|));
    editor.DoReturn();
    items, focus, highlight := c.items, c.focus, c.highlight;
    flags, color, brushSize := s.ActiveFlags(), s.color, s.brushSize;
  }
}
