/**
 * Tool selection: the four activity flags, the current colour and the brush size, which the
 * toolbar changes through change_active, color_change and brush_size_change, and the press
 * anchors (sx1, sy1) and (cx1, cy1) that the mouse handlers record.
 */
module Tools {
  import opened Wrappers

  datatype Tool = Brush | RectangleTool | Circle | TextTool

  /** brushActive, rectangleActive, circleActive, textActive. */
  datatype Flags = Flags(brush: bool, rectangle: bool, circle: bool, text: bool)

  /** The tool a `change_active` argument names; "circle" is the Oval button's name. */
  function ToolNamed(paintType: string): Option<Tool>
  {
    if paintType == "brush" then Some(Brush)
    else if paintType == "rectangle" then Some(RectangleTool)
    else if paintType == "circle" then Some(Circle)
    else if paintType == "text" then Some(TextTool)
    else None
  }

  function IsActive(f: Flags, t: Tool): bool
  {
    match t
    case Brush => f.brush
    case RectangleTool => f.rectangle
    case Circle => f.circle
    case TextTool => f.text
  }

  function CountActive(f: Flags): nat
  {
    (if f.brush then 1 else 0) + (if f.rectangle then 1 else 0) +
    (if f.circle then 1 else 0) + (if f.text then 1 else 0)
  }

  predicate AtMostOne(f: Flags)
  {
    CountActive(f) <= 1
  }

  /** The four flags as the program starts. */
  const NoTool := Flags(false, false, false, false)

  /** The flags with `t` on and every other tool off. */
  function Only(t: Tool): (f: Flags)
    ensures IsActive(f, t) && CountActive(f) == 1
    ensures forall u :: IsActive(f, u) <==> u == t
  {
    Flags(t == Brush, t == RectangleTool, t == Circle, t == TextTool)
  }

  /**
   * The flags after `change_active(paintType)`: a tool name leaves exactly that tool active;
   * any other string prints a message and leaves all four flags as they were.
   */
  function ChangeActiveSpec(f: Flags, paintType: string): (r: Flags)
    ensures ToolNamed(paintType).Some? ==>
      CountActive(r) == 1 && forall u :: IsActive(r, u) <==> u == ToolNamed(paintType).value
    ensures ToolNamed(paintType).None? ==> r == f
    ensures AtMostOne(f) ==> AtMostOne(r)
  {
    match ToolNamed(paintType)
    case Some(t) => Only(t)
    case None => f
  }

  /** The flags after a whole series of `change_active` calls. */
  function ChangeAll(f: Flags, calls: seq<string>): Flags
    decreases |calls|
  {
    if calls == [] then f else ChangeAll(ChangeActiveSpec(f, calls[0]), calls[1..])
  }

  /** From all-off, or any state with at most one tool on, no series of calls turns on two. */
  lemma {:induction false} AtMostOneAfterCalls(f: Flags, calls: seq<string>)
    requires AtMostOne(f)
    ensures AtMostOne(ChangeAll(f, calls))
    decreases |calls|
  {
    if calls != [] {
      AtMostOneAfterCalls(ChangeActiveSpec(f, calls[0]), calls[1..]);
    }
  }

  /** Once a series of calls contains a tool name, exactly one tool is active, the last one named. */
  lemma {:induction false} LastNamedToolWins(f: Flags, calls: seq<string>, k: nat)
    requires k < |calls| && ToolNamed(calls[k]).Some?
    requires forall j :: k < j < |calls| ==> ToolNamed(calls[j]).None?
    ensures ChangeAll(f, calls) == Only(ToolNamed(calls[k]).value)
    decreases |calls|
  {
    if k == 0 {
      UnnamedCallsChangeNothing(ChangeActiveSpec(f, calls[0]), calls[1..]);
    } else {
      LastNamedToolWins(ChangeActiveSpec(f, calls[0]), calls[1..], k - 1);
    }
  }

  /** Calls that name no tool leave the flags alone. */
  lemma {:induction false} UnnamedCallsChangeNothing(f: Flags, calls: seq<string>)
    requires forall j :: 0 <= j < |calls| ==> ToolNamed(calls[j]).None?
    ensures ChangeAll(f, calls) == f
    decreases |calls|
  {
    if calls != [] {
      UnnamedCallsChangeNothing(f, calls[1..]);
    }
  }

  /** The module-level state of the program that the toolbar and the mouse handlers overwrite. */
  class ToolState {
    var brushActive: bool
    var rectangleActive: bool
    var circleActive: bool
    var textActive: bool
    var color: string
    var brushSize: int
    /** (sx1, sy1); None until the first press with the rectangle tool. */
    var rectStart: Option<(int, int)>
    /** (cx1, cy1); None until the first press with the oval tool. */
    var ovalStart: Option<(int, int)>

    function ActiveFlags(): Flags
      reads this
    {
      Flags(brushActive, rectangleActive, circleActive, textActive)
    }

    ghost predicate Valid()
      reads this
    {
      AtMostOne(ActiveFlags())
    }

    /** No tool active, colour 'black', brush size 3, no anchors recorded yet. */
    constructor ()
      ensures Valid() && ActiveFlags() == NoTool
      ensures color == "black" && brushSize == 3
      ensures rectStart == None && ovalStart == None
    {
      brushActive, rectangleActive, circleActive, textActive := false, false, false, false;
      color := "black";
      brushSize := 3;
      rectStart, ovalStart := None, None;
    }

    /** change_active: switch to the named tool; an unknown name changes nothing. */
    method ChangeActive(paintType: string)
      modifies this
      ensures ActiveFlags() == ChangeActiveSpec(old(ActiveFlags()), paintType)
      ensures old(Valid()) ==> Valid()
      ensures color == old(color) && brushSize == old(brushSize)
      ensures rectStart == old(rectStart) && ovalStart == old(ovalStart)
    {
      if paintType == "brush" {
        rectangleActive := false;
        circleActive := false;
        textActive := false;
        brushActive := true;
      } else if paintType == "rectangle" {
        brushActive := false;
        circleActive := false;
        textActive := false;
        rectangleActive := true;
      } else if paintType == "circle" {
        brushActive := false;
        rectangleActive := false;
        textActive := false;
        circleActive := true;
      } else if paintType == "text" {
        brushActive := false;
        rectangleActive := false;
        circleActive := false;
        textActive := true;
      }
    }

    /** color_change: the brush becomes the only active tool and the colour is `newColor`. */
    method ColorChange(newColor: string)
      modifies this
      ensures Valid() && ActiveFlags() == Only(Brush)
      ensures color == newColor && brushSize == old(brushSize)
      ensures rectStart == old(rectStart) && ovalStart == old(ovalStart)
    {
      ChangeActive("brush");
      color := newColor;
    }

    /** brush_size_change: the brush size is `newSize`; nothing else changes. */
    method BrushSizeChange(newSize: int)
      modifies this
      ensures brushSize == newSize
      ensures ActiveFlags() == old(ActiveFlags()) && color == old(color)
      ensures rectStart == old(rectStart) && ovalStart == old(ovalStart)
    {
      brushSize := newSize;
    }
  }
}
