/**
 * The drawing surface and the editable-text handlers that live on it.
 * `Canvas` holds what the Tk canvas holds for this program: the primitives in the order they
 * were created, which text item has keyboard focus, and the one "highlight" rectangle.
 * `Text` is the editor class of the program; its handlers change the canvas in place.
 */
module Drawing {
  import opened Wrappers
  import opened Geometry
  import opened TkText
  import TextEdit

  /** One drawn item: shapes keep the corners they were given; texts carry their editing state. */
  datatype Primitive =
    | Oval(box: Box, fill: Option<string>, outline: string, width: int)
    | Rectangle(box: Box, outline: string, width: int)
    | TextLabel(item: TextItem)

  /** The margin between a text item's bounding box and its highlight rectangle. */
  const HighlightMargin := 4

  /**
   * The highlight after `highlight(item)`: a rectangle is created at (0, 0, 0, 0) if there is
   * none, then moved to the item's bounding box grown by the margin. `bbox` is Tk's rendered
   * bounding box; when Tk reports none the source's `bbox[0]` fails and the rectangle stays put.
   */
  function Refreshed(h: Option<Box>, bbox: Option<Box>): (r: Option<Box>)
    ensures r.Some?
    ensures bbox.Some? ==> r == Some(Expand(bbox.value, HighlightMargin))
    ensures bbox.None? && h.Some? ==> r == h
    ensures bbox.None? && h.None? ==> r == Some(Box(0, 0, 0, 0))
  {
    var uid := if h.None? then Box(0, 0, 0, 0) else h.value;
    match bbox
    case None => Some(uid)
    case Some(b) => Some(Expand(b, HighlightMargin))
  }

  /** A primitive with its share of the selection dropped. */
  function Unselected(p: Primitive): Primitive
  {
    if p.TextLabel? then TextLabel(SelectClear(p.item)) else p
  }

  /** Text items are well formed, and only the focused one may own the selection. */
  predicate Consistent(p: Primitive, i: nat, focus: Option<nat>)
  {
    p.TextLabel? ==> WellFormed(p.item) && (p.item.selection.Some? ==> focus == Some(i))
  }

  class Canvas {
    var items: seq<Primitive>
    var focus: Option<nat>
    var highlight: Option<Box>

    /** The canvas invariant: the focus names a text item, and a highlight exists iff one has focus. */
    ghost predicate Valid()
      reads this
    {
      (forall i :: 0 <= i < |items| ==> Consistent(items[i], i, focus)) &&
      (focus.Some? ==> focus.value < |items| && items[focus.value].TextLabel?) &&
      (highlight.Some? <==> focus.Some?)
    }

    /** No text item owns a selection. */
    ghost predicate NoSelection()
      reads this
    {
      forall i :: 0 <= i < |items| && items[i].TextLabel? ==> items[i].item.selection.None?
    }

    /** The focused text item. */
    function Focused(): (t: TextItem)
      reads this
      requires Valid() && focus.Some?
      ensures WellFormed(t)
    {
      assert Consistent(items[focus.value], focus.value, focus);
      items[focus.value].item
    }

    /** An empty canvas. */
    constructor ()
      ensures Valid() && NoSelection()
      ensures items == [] && focus == None && highlight == None
    {
      items := [];
      focus := None;
      highlight := None;
    }

    /** `create_oval(box, fill=..., outline=..., width=...)`. */
    method CreateOval(box: Box, fill: Option<string>, outline: string, width: int)
      requires Valid()
      modifies this
      ensures Valid()
      ensures items == old(items) + [Oval(box, fill, outline, width)]
      ensures focus == old(focus) && highlight == old(highlight)
    {
      items := items + [Oval(box, fill, outline, width)];
    }

    /** `create_rectangle(box, outline=..., width=...)`; the interior is left unfilled. */
    method CreateRectangle(box: Box, outline: string, width: int)
      requires Valid()
      modifies this
      ensures Valid()
      ensures items == old(items) + [Rectangle(box, outline, width)]
      ensures focus == old(focus) && highlight == old(highlight)
    {
      items := items + [Rectangle(box, outline, width)];
    }

    /** `create_text(x, y, anchor="nw", tags=("editable",), text=text)`: cursor at 0, nothing selected. */
    method CreateText(x: int, y: int, text: string)
      requires Valid()
      modifies this
      ensures Valid()
      ensures items == old(items) + [TextLabel(TextItem(x, y, text, 0, None))]
      ensures focus == old(focus) && highlight == old(highlight)
    {
      items := items + [TextLabel(TextItem(x, y, text, 0, None))];
    }

    /** `delete("all")`: every primitive goes, the highlight with them, and so do focus and selection. */
    method DeleteAll()
      modifies this
      ensures Valid() && NoSelection()
      ensures items == [] && focus == None && highlight == None
    {
      items := [];
      focus := None;
      highlight := None;
    }

    /** Put the edited version of the focused text item in its place. */
    method ReplaceFocused(t: TextItem)
      requires Valid() && focus.Some? && WellFormed(t)
      modifies this
      ensures Valid()
      ensures items == old(items)[old(focus).value := TextLabel(t)]
      ensures focus == old(focus) && highlight == old(highlight)
    {
      items := items[focus.value := TextLabel(t)];
    }
  }

  /** The editor class: its handlers act on the focused text item of `canvas`. */
  class Text {
    const canvas: Canvas

    /** The tag bindings the source installs here are event wiring and are not modelled. */
    constructor (canvas: Canvas)
      ensures this.canvas == canvas
    {
      this.canvas := canvas;
    }

    /** do_return: focus is dropped, the highlight deleted and the selection cleared. */
    method DoReturn()
      requires canvas.Valid()
      modifies canvas
      ensures canvas.Valid() && canvas.NoSelection()
      ensures canvas.focus == None && canvas.highlight == None
      ensures old(canvas.focus).None? ==> canvas.items == old(canvas.items)
      ensures old(canvas.focus).Some? ==>
        canvas.items == old(canvas.items)[old(canvas.focus).value := TextLabel(SelectClear(old(canvas.Focused())))]
    {
      var item := canvas.focus;
      if item.Some? {
        canvas.ReplaceFocused(SelectClear(canvas.Focused()));
      }
      canvas.focus := None;
      canvas.highlight := None;
    }

    /** do_left: with an item focused, the cursor moves one character left and the selection goes. */
    method DoLeft()
      requires canvas.Valid()
      modifies canvas
      ensures canvas.Valid()
      ensures old(canvas.focus).None? ==> unchanged(canvas)
      ensures canvas.focus == old(canvas.focus) && canvas.highlight == old(canvas.highlight)
      ensures old(canvas.focus).Some? ==>
        canvas.items == old(canvas.items)[old(canvas.focus).value := TextLabel(TextEdit.Left(old(canvas.Focused())))]
    {
      var item := canvas.focus;
      if item.Some? {
        canvas.ReplaceFocused(TextEdit.Left(canvas.Focused()));
      }
    }

    /** do_right: with an item focused, the cursor moves one character right and the selection goes. */
    method DoRight()
      requires canvas.Valid()
      modifies canvas
      ensures canvas.Valid()
      ensures old(canvas.focus).None? ==> unchanged(canvas)
      ensures canvas.focus == old(canvas.focus) && canvas.highlight == old(canvas.highlight)
      ensures old(canvas.focus).Some? ==>
        canvas.items == old(canvas.items)[old(canvas.focus).value := TextLabel(TextEdit.Right(old(canvas.Focused())))]
    {
      var item := canvas.focus;
      if item.Some? {
        canvas.ReplaceFocused(TextEdit.Right(canvas.Focused()));
      }
    }

    /** do_home: with an item focused, the cursor goes to 0 and the selection goes. */
    method DoHome()
      requires canvas.Valid()
      modifies canvas
      ensures canvas.Valid()
      ensures old(canvas.focus).None? ==> unchanged(canvas)
      ensures canvas.focus == old(canvas.focus) && canvas.highlight == old(canvas.highlight)
      ensures old(canvas.focus).Some? ==>
        canvas.items == old(canvas.items)[old(canvas.focus).value := TextLabel(TextEdit.Home(old(canvas.Focused())))]
    {
      var item := canvas.focus;
      if item.Some? {
        canvas.ReplaceFocused(TextEdit.Home(canvas.Focused()));
      }
    }

    /** do_end: with an item focused, the cursor goes to the end of the text and the selection goes. */
    method DoEnd()
      requires canvas.Valid()
      modifies canvas
      ensures canvas.Valid()
      ensures old(canvas.focus).None? ==> unchanged(canvas)
      ensures canvas.focus == old(canvas.focus) && canvas.highlight == old(canvas.highlight)
      ensures old(canvas.focus).Some? ==>
        canvas.items == old(canvas.items)[old(canvas.focus).value := TextLabel(TextEdit.End(old(canvas.Focused())))]
    {
      var item := canvas.focus;
      if item.Some? {
        canvas.ReplaceFocused(TextEdit.End(canvas.Focused()));
      }
    }

    /**
     * do_key: with an item focused and `event.char >= " "`, the selection is replaced by the typed
     * string at the cursor and the highlight is refreshed; `bbox` is the item's new rendered box.
     */
    method DoKey(ch: string, bbox: Option<Box>)
      requires canvas.Valid()
      modifies canvas
      ensures canvas.Valid()
      ensures old(canvas.focus).None? || !TextEdit.Printable(ch) ==> unchanged(canvas)
      ensures canvas.focus == old(canvas.focus)
      ensures old(canvas.focus).Some? && TextEdit.Printable(ch) ==>
        canvas.items == old(canvas.items)[old(canvas.focus).value := TextLabel(TextEdit.TypeChar(old(canvas.Focused()), ch))] &&
        canvas.highlight == Refreshed(old(canvas.highlight), bbox)
    {
      var item := canvas.focus;
      if item.Some? && TextEdit.Printable(ch) {
        canvas.ReplaceFocused(TextEdit.TypeChar(canvas.Focused(), ch));
        Highlight(bbox);
      }
    }

    /**
     * do_backspace: with an item focused, the selection or the character before the cursor is
     * deleted, and the highlight is refreshed; `bbox` is the item's new rendered box.
     */
    method DoBackspace(bbox: Option<Box>)
      requires canvas.Valid()
      modifies canvas
      ensures canvas.Valid()
      ensures old(canvas.focus).None? ==> unchanged(canvas)
      ensures canvas.focus == old(canvas.focus)
      ensures old(canvas.focus).Some? ==>
        canvas.items == old(canvas.items)[old(canvas.focus).value := TextLabel(TextEdit.Backspace(old(canvas.Focused())))] &&
        canvas.highlight == Refreshed(old(canvas.highlight), bbox)
    {
      var item := canvas.focus;
      if item.Some? {
        canvas.ReplaceFocused(TextEdit.Backspace(canvas.Focused()));
        Highlight(bbox);
      }
    }

    /** highlight(item), called on the focused item: afterwards there is one highlight rectangle, placed by Refreshed. */
    method Highlight(bbox: Option<Box>)
      requires canvas.focus.Some?
      modifies canvas`highlight
      ensures canvas.highlight == Refreshed(old(canvas.highlight), bbox)
    {
      var uid := if canvas.highlight.None? then Box(0, 0, 0, 0) else canvas.highlight.value;
      if bbox.Some? {
        uid := Expand(bbox.value, HighlightMargin);
      }
      canvas.highlight := Some(uid);
    }

    /**
     * set_focus: when the item under the pointer (`current`, an index into the canvas) is a text
     * item, it takes focus, all of its text becomes the selection (which no other item keeps),
     * and the highlight moves to it. Otherwise nothing changes.
     */
    method SetFocus(current: Option<nat>, bbox: Option<Box>)
      requires canvas.Valid()
      modifies canvas
      ensures canvas.Valid()
      ensures !(current.Some? && current.value < |old(canvas.items)| && old(canvas.items)[current.value].TextLabel?) ==>
        unchanged(canvas)
      ensures current.Some? && current.value < |old(canvas.items)| && old(canvas.items)[current.value].TextLabel? ==>
        canvas.focus == current &&
        |canvas.items| == |old(canvas.items)| &&
        canvas.items[current.value] == TextLabel(SelectAll(old(canvas.items)[current.value].item)) &&
        (forall j :: 0 <= j < |canvas.items| && j != current.value ==> canvas.items[j] == Unselected(old(canvas.items)[j])) &&
        canvas.highlight == Refreshed(old(canvas.highlight), bbox)
    {
      if current.Some? && current.value < |canvas.items| && canvas.items[current.value].TextLabel? {
        var i := current.value;
        ghost var before := canvas.items;
        var its := canvas.items;
        if canvas.focus.Some? {
          var f := canvas.focus.value;
          its := its[f := TextLabel(SelectClear(canvas.Focused()))];
        }
        its := its[i := TextLabel(SelectAll(its[i].item))];
        forall j | 0 <= j < |its| && j != i
          ensures its[j] == Unselected(before[j])
        {
          assert Consistent(before[j], j, canvas.focus);
        }
        canvas.items := its;
        canvas.focus := Some(i);
        Highlight(bbox);
        assert forall j :: 0 <= j < |its| ==> Consistent(its[j], j, Some(i)) by {
          forall j | 0 <= j < |its|
            ensures Consistent(its[j], j, Some(i))
          {
            assert Consistent(before[j], j, old(canvas.focus));
          }
        }
      }
    }

    /**
     * set_cursor: with an item focused, the cursor moves to `at`, the character index Tk finds
     * nearest the click in the focused item, and the selection goes.
     */
    method SetCursor(at: int)
      requires canvas.Valid()
      modifies canvas
      ensures canvas.Valid()
      ensures old(canvas.focus).None? ==> unchanged(canvas)
      ensures canvas.focus == old(canvas.focus) && canvas.highlight == old(canvas.highlight)
      ensures old(canvas.focus).Some? ==>
        canvas.items == old(canvas.items)[old(canvas.focus).value := TextLabel(TextEdit.SetCursor(old(canvas.Focused()), at))]
    {
      var item := canvas.focus;
      if item.Some? {
        canvas.ReplaceFocused(TextEdit.SetCursor(canvas.Focused(), at));
      }
    }

    /** create_text: a new editable text item at (x, y), anchored at its top-left corner. */
    method CreateText(x: int, y: int, text: string)
      requires canvas.Valid()
      modifies canvas
      ensures canvas.Valid()
      ensures canvas.items == old(canvas.items) + [TextLabel(TextItem(x, y, text, 0, None))]
      ensures canvas.focus == old(canvas.focus) && canvas.highlight == old(canvas.highlight)
    {
      canvas.CreateText(x, y, text);
    }
  }
}
