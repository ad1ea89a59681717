/**
 * The key and mouse handlers of the `Text` editor class, each as the change it makes to the
 * focused text item. They are written as the sequence of Tk calls the handler makes; their
 * contracts say what the result is in terms of the text, the cursor and the selection.
 * Whether an item has focus, and the highlight box, are the canvas's business (see Drawing).
 */
module TextEdit {
  import opened Wrappers
  import opened TkText

  /** Python's `a < b` on strings: lexicographic by code point, a proper prefix is smaller. */
  function StrLess(a: string, b: string): bool
  {
    if |b| == 0 then false
    else if |a| == 0 then true
    else if a[0] != b[0] then a[0] < b[0]
    else StrLess(a[1..], b[1..])
  }

  /** `event.char >= " "`, the guard of do_key. Modifier keys deliver the empty string. */
  predicate Printable(ch: string)
  {
    !StrLess(ch, " ")
  }

  /** The guard accepts exactly the non-empty strings whose first character is at least a space. */
  lemma PrintableIff(ch: string)
    ensures Printable(ch) <==> |ch| > 0 && ch[0] >= ' '
  {
    if |ch| > 0 && ch[0] == ' ' {
      assert !StrLess(ch[1..], " "[1..]);
    }
  }

  /** The guard lets through DEL and the C1 controls, which are at or above a space. */
  lemma DelPassesGuard()
    ensures Printable([127 as char]) && Printable([133 as char])
    ensures !Printable([31 as char]) && !Printable("")
  {
    PrintableIff([127 as char]);
    PrintableIff([133 as char]);
    PrintableIff([31 as char]);
    PrintableIff("");
  }

  // ----- reference definitions of what deleting the selection leaves -----

  /** The number of selected characters. */
  function SelectionLength(t: TextItem): nat
    requires WellFormed(t)
  {
    if t.selection.Some? then t.selection.value.end - t.selection.value.start else 0
  }

  /** The text with the selected characters removed. */
  function Kept(t: TextItem): string
    requires WellFormed(t)
  {
    match t.selection
    case None => t.content
    case Some(sel) => Cut(t.content, sel.start, sel.end)
  }

  /** The cursor once the selected characters are removed. */
  function KeptCursor(t: TextItem): nat
    requires WellFormed(t)
  {
    match t.selection
    case None => t.cursor
    case Some(sel) => ShiftCursor(t.cursor, sel.start, sel.end)
  }

  // ----- cursor movement -----

  /** do_left: `icursor(item, index(item, "insert") - 1)`, then `select_clear()`. */
  function Left(t: TextItem): (r: TextItem)
    requires WellFormed(t)
    ensures WellFormed(r) && SameText(r, t) && r.selection == None
    ensures r.cursor == if t.cursor == 0 then 0 else t.cursor - 1
  {
    SelectClear(Icursor(t, t.cursor - 1))
  }

  /** do_right: `icursor(item, index(item, "insert") + 1)`, then `select_clear()`. */
  function Right(t: TextItem): (r: TextItem)
    requires WellFormed(t)
    ensures WellFormed(r) && SameText(r, t) && r.selection == None
    ensures r.cursor == if t.cursor == |t.content| then t.cursor else t.cursor + 1
  {
    SelectClear(Icursor(t, t.cursor + 1))
  }

  /** do_home: `icursor(item, 0)`, then `select_clear()`. */
  function Home(t: TextItem): (r: TextItem)
    ensures WellFormed(r) && SameText(r, t) && r.selection == None
    ensures r.cursor == 0
  {
    SelectClear(Icursor(t, 0))
  }

  /** do_end: `icursor(item, "end")`, then `select_clear()`; Tk's "end" is the length of the text. */
  function End(t: TextItem): (r: TextItem)
    ensures WellFormed(r) && SameText(r, t) && r.selection == None
    ensures r.cursor == |t.content|
  {
    SelectClear(Icursor(t, |t.content|))
  }

  /**
   * set_cursor: `icursor(item, "@x,y")`, then `select_clear()`. `at` is the character index Tk's
   * nearest-character lookup returns for the pointer position; Tk clamps it like any other index.
   */
  function SetCursor(t: TextItem, at: int): (r: TextItem)
    ensures WellFormed(r) && SameText(r, t) && r.selection == None
    ensures 0 <= at <= |t.content| ==> r.cursor == at
    ensures at < 0 ==> r.cursor == 0
    ensures at > |t.content| ==> r.cursor == |t.content|
  {
    SelectClear(Icursor(t, at))
  }

  /** Away from the ends of the text, Left and Right undo each other. */
  lemma LeftRightInverse(t: TextItem)
    requires WellFormed(t)
    ensures t.cursor > 0 ==> Right(Left(t)).cursor == t.cursor
    ensures t.cursor < |t.content| ==> Left(Right(t)).cursor == t.cursor
  {
  }

  // ----- editing -----

  /** `dchars(item, "sel.first", "sel.last")` then `select_clear()`, when there is a selection. */
  function DeleteSelection(t: TextItem): (r: TextItem)
    requires WellFormed(t)
    ensures WellFormed(r) && r.selection == None && r.x == t.x && r.y == t.y
    ensures r.content == Kept(t) && r.cursor == KeptCursor(t)
    ensures |r.content| == |t.content| - SelectionLength(t)
  {
    match t.selection
    case None => t
    case Some(sel) =>
      var r := SelectClear(Dchars(t, sel.start, sel.end - 1));
      assert sel.start == sel.end ==> t.content[..sel.start] + t.content[sel.end..] == t.content;
      r
  }

  /**
   * do_key, once the guard `event.char >= " "` has passed: any selection is deleted and cleared,
   * then the typed string goes in at the cursor and the cursor moves past it.
   */
  function TypeChar(t: TextItem, ch: string): (r: TextItem)
    requires WellFormed(t)
    ensures WellFormed(r) && r.selection == None && r.x == t.x && r.y == t.y
    ensures |r.content| == |t.content| - SelectionLength(t) + |ch|
    ensures var p := KeptCursor(t);
      p + |ch| <= |r.content| &&
      r.content[..p] == Kept(t)[..p] &&
      r.content[p..p + |ch|] == ch &&
      r.content[p + |ch|..] == Kept(t)[p..] &&
      r.cursor == p + |ch|
  {
    var d := DeleteSelection(t);
    Insert(d, d.cursor, ch)
  }

  /**
   * do_backspace, as the handler means it: with a selection, delete it and clear it; otherwise,
   * with the cursor past 0, delete the one character in front of the cursor, `dchars(item, insert - 1)`.
   */
  function Backspace(t: TextItem): (r: TextItem)
    requires WellFormed(t)
    ensures WellFormed(r) && r.selection == None && r.x == t.x && r.y == t.y
    ensures t.selection.Some? ==> r.content == Kept(t) && r.cursor == KeptCursor(t)
    ensures t.selection.None? && t.cursor > 0 ==>
      r.content == t.content[..t.cursor - 1] + t.content[t.cursor..] && r.cursor == t.cursor - 1
    ensures t.selection.None? && t.cursor == 0 ==> r == t
  {
    if t.selection.Some? then DeleteSelection(t)
    else if t.cursor > 0 then
      DcharsOne(t, t.cursor - 1);
      Dchars(t, t.cursor - 1, t.cursor - 1)
    else t
  }

  /**
   * do_backspace exactly as written: without a selection it calls `dchars(item, insert - 1, insert)`,
   * and Tk's dchars range is inclusive, so the character AFTER the cursor goes as well.
   */
  function BackspaceAsWritten(t: TextItem): (r: TextItem)
    requires WellFormed(t)
    ensures WellFormed(r) && r.selection == None && r.x == t.x && r.y == t.y
    ensures t.selection.Some? ==> r.content == Kept(t) && r.cursor == KeptCursor(t)
    ensures t.selection.None? && 0 < t.cursor < |t.content| ==>
      r.content == t.content[..t.cursor - 1] + t.content[t.cursor + 1..] && r.cursor == t.cursor - 1
    ensures t.selection.None? && 0 < t.cursor == |t.content| ==> r == Backspace(t)
    ensures t.selection.None? && t.cursor == 0 ==> r == t
  {
    if t.selection.Some? then DeleteSelection(t)
    else if t.cursor > 0 then
      if t.cursor < |t.content| then
        DcharsTwo(t, t.cursor - 1);
        Dchars(t, t.cursor - 1, t.cursor)
      else
        DcharsOne(t, t.cursor - 1);
        Dchars(t, t.cursor - 1, t.cursor)
    else t
  }

  /** Typing one character and then pressing Backspace gives back the item as it was. */
  lemma {:induction false} BackspaceUndoesTypeChar(t: TextItem, c: char)
    requires WellFormed(t) && t.selection.None?
    ensures Backspace(TypeChar(t, [c])) == t
  {
    var r := TypeChar(t, [c]);
    var b := Backspace(r);
    var p := t.cursor;
    assert Kept(t) == t.content && KeptCursor(t) == p;
    assert r.cursor == p + 1;
    assert r.content[..p] + r.content[p + 1..] == t.content[..p] + t.content[p..];
    assert t.content[..p] + t.content[p..] == t.content;
    assert b.content == t.content;
  }

  /** With the cursor inside "abc", the handler as written removes two characters. */
  lemma BackspaceAsWrittenDeletesTwo()
    ensures BackspaceAsWritten(TextItem(0, 0, "abc", 1, None)).content == "c"
    ensures Backspace(TextItem(0, 0, "abc", 1, None)).content == "bc"
  {
    assert "abc"[..0] + "abc"[2..] == "c";
    assert "abc"[..0] + "abc"[1..] == "bc";
  }

  /** The same defect breaks the type-then-erase round trip: "aXbc" loses the 'b'. */
  lemma BackspaceAsWrittenBreaksUndo()
    ensures TypeChar(TextItem(0, 0, "abc", 1, None), "X").content == "aXbc"
    ensures BackspaceAsWritten(TypeChar(TextItem(0, 0, "abc", 1, None), "X")).content == "ac"
  {
    var r := TypeChar(TextItem(0, 0, "abc", 1, None), "X");
    assert r.content[..1] == "a" && r.content[1..2] == "X" && r.content[2..] == "bc";
    assert r.content == r.content[..1] + r.content[1..2] + r.content[2..];
    assert r.cursor == 2;
    assert r.content[..1] + r.content[3..] == "ac";
  }

  /** From "abc" with the cursor at 1, typing "X" gives "aXbc" with the cursor at 2. */
  lemma TypeCharExample()
    ensures TypeChar(TextItem(0, 0, "abc", 1, None), "X") == TextItem(0, 0, "aXbc", 2, None)
  {
    var r := TypeChar(TextItem(0, 0, "abc", 1, None), "X");
    assert r.content[..1] == "a" && r.content[1..2] == "X" && r.content[2..] == "bc";
    assert r.content == r.content[..1] + r.content[1..2] + r.content[2..];
  }

  /** Backspace over the selection [1, 3) of "abcd" gives "ad" with the cursor at 1. */
  lemma BackspaceSelectionExample()
    ensures Backspace(TextItem(0, 0, "abcd", 3, Some(Range(1, 3)))) == TextItem(0, 0, "ad", 1, None)
  {
    assert Cut("abcd", 1, 3) == "ad";
  }
}
