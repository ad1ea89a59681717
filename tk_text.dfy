/**
 * The parts of a Tk canvas text item that the editor handlers drive: its characters, its
 * insertion cursor and its share of the canvas selection, with the index arithmetic Tk applies
 * in `icursor`, `dchars`, `insert`, `select from` / `select to` and `select clear`.
 * Tk itself is not part of this model; these functions state the behaviour the handlers rely on.
 */
module TkText {
  import opened Wrappers
  import opened Geometry

  /**
   * A selection as the half-open range of character indices [start, end).
   * Tk reports it as `sel.first == start` and an inclusive `sel.last`, which is `end - 1`, or
   * |content| after a select-to-end; dchars deletes the same characters either way.
   */
  datatype Range = Range(start: nat, end: nat)

  /** An "editable" text item anchored at its top-left corner (`anchor="nw"`). */
  datatype TextItem = TextItem(x: int, y: int, content: string, cursor: nat, selection: Option<Range>)

  /** Tk keeps the insertion cursor a valid insertion point and the selection inside the text. */
  predicate WellFormed(t: TextItem)
  {
    t.cursor <= |t.content| &&
    (t.selection.Some? ==> t.selection.value.start <= t.selection.value.end <= |t.content|)
  }

  /** The same text at the same place; only cursor or selection may differ. */
  predicate SameText(r: TextItem, t: TextItem)
  {
    r.x == t.x && r.y == t.y && r.content == t.content
  }

  /** Tk clamps every cursor index into [0, n]; this is what keeps the cursor in range. */
  function Clamp(index: int, n: nat): (r: nat)
    ensures r <= n
    ensures 0 <= index <= n ==> r == index
    ensures index < 0 ==> r == 0
    ensures index > n ==> r == n
  {
    if index < 0 then 0 else if index > n then n else index
  }

  /** `icursor(item, index)`: move the insertion cursor, clamped into the text. */
  function Icursor(t: TextItem, index: int): (r: TextItem)
    ensures SameText(r, t) && r.selection == t.selection
    ensures r.cursor <= |r.content|
    ensures 0 <= index <= |t.content| ==> r.cursor == index
    ensures index < 0 ==> r.cursor == 0
    ensures index > |t.content| ==> r.cursor == |t.content|
  {
    t.(cursor := Clamp(index, |t.content|))
  }

  /** `select clear`, for the item that owns the selection. */
  function SelectClear(t: TextItem): TextItem
  {
    t.(selection := None)
  }

  /** `select_from(item, 0)` followed by `select_to(item, "end")`: every character is selected. */
  function SelectAll(t: TextItem): (r: TextItem)
    ensures SameText(r, t) && r.cursor == t.cursor
    ensures r.selection.Some? && r.selection.value.start == 0 && r.selection.value.end == |t.content|
  {
    t.(selection := Some(Range(0, |t.content|)))
  }

  /** The string with the characters at indices [lo, hi) taken out. */
  function Cut(s: string, lo: nat, hi: nat): (r: string)
    requires lo <= hi <= |s|
    ensures |r| == |s| - (hi - lo)
    ensures forall i :: 0 <= i < lo ==> r[i] == s[i]
    ensures forall i :: lo <= i < |r| ==> r[i] == s[i + (hi - lo)]
  {
    s[..lo] + s[hi..]
  }

  /** Where a cursor ends up when [lo, hi) is taken out: in front of the same character, or at lo. */
  function ShiftCursor(c: nat, lo: nat, hi: nat): nat
    requires lo <= hi
  {
    if c <= lo then c else if c >= hi then c - (hi - lo) else lo
  }

  /**
   * `dchars(item, first, last)`: Tk deletes the characters first..last INCLUSIVE, after clamping
   * first to 0 and last to the final character; an empty range deletes nothing. An insertion
   * cursor past the deleted characters moves back by their number, one inside them moves to first.
   * Tk also shifts the selection, but every caller here clears the selection right after, so
   * the selection is left as it was.
   */
  function Dchars(t: TextItem, first: int, last: int): (r: TextItem)
    ensures r.x == t.x && r.y == t.y && r.selection == t.selection
    ensures var lo := Max(first, 0); var hi := Min(last + 1, |t.content|);
      if lo < hi then r.content == Cut(t.content, lo, hi) && r.cursor == ShiftCursor(t.cursor, lo, hi)
      else r == t
    ensures t.cursor <= |t.content| ==> r.cursor <= |r.content|
  {
    var n := |t.content|;
    var f := if first < 0 then 0 else first;
    var l := if last >= n then n - 1 else last;
    if f > l then t
    else
      var count := l + 1 - f;
      var c := if t.cursor > f then (if t.cursor - count < f then f else t.cursor - count) else t.cursor;
      t.(content := t.content[..f] + t.content[l + 1..], cursor := c)
  }

  /** Deleting the single character at i: `dchars(item, i)`, or `dchars(item, i, i)`. */
  lemma DcharsOne(t: TextItem, i: nat)
    requires t.cursor <= |t.content| && i < |t.content|
    ensures Dchars(t, i, i) == t.(content := t.content[..i] + t.content[i + 1..],
                                  cursor := if t.cursor > i then t.cursor - 1 else t.cursor)
  {
  }

  /** Deleting the two characters at i and i + 1: `dchars(item, i, i + 1)`. */
  lemma DcharsTwo(t: TextItem, i: nat)
    requires t.cursor <= |t.content| && i + 1 < |t.content|
    ensures Dchars(t, i, i + 1) == t.(content := t.content[..i] + t.content[i + 2..],
                                      cursor := ShiftCursor(t.cursor, i, i + 2))
  {
  }

  /**
   * `insert(item, index, s)`: the index is clamped into the text, `s` goes in front of the
   * character at that index, and a cursor at or after that index moves over the new characters.
   */
  function Insert(t: TextItem, index: int, s: string): (r: TextItem)
    ensures r.x == t.x && r.y == t.y && r.selection == t.selection
    ensures var i := Clamp(index, |t.content|);
      |r.content| == |t.content| + |s| &&
      r.content[..i] == t.content[..i] &&
      r.content[i..i + |s|] == s &&
      r.content[i + |s|..] == t.content[i..] &&
      r.cursor == (if t.cursor >= i then t.cursor + |s| else t.cursor)
    ensures t.cursor <= |t.content| ==> r.cursor <= |r.content|
  {
    var i := Clamp(index, |t.content|);
    var c := if t.cursor >= i then t.cursor + |s| else t.cursor;
    t.(content := t.content[..i] + s + t.content[i..], cursor := c)
  }
}
