/**
 The on-screen keyboard in the lower part of the screen: a strip of three
 layout tabs, a four-row key grid taken from the active layout, and a fixed
 bottom row (shift, backspace, space, enter). Hit-testing is integer
 geometry over the same key rectangles that are drawn.
 */
module VirtualKeyboard {

  import opened Basics

  const SCREEN_W: int := 320
  const SCREEN_H: int := 528
  const KEYBOARD_H: int := 260
  const TAB_H: int := 30
  const ROW_H: int := 45

  /** The keyboard's top edge. */
  const KEYBOARD_Y: int := SCREEN_H - KEYBOARD_H
  /** The top edge of the key grid, just below the tab strip. */
  const GRID_Y: int := KEYBOARD_Y + TAB_H
  const GRID_ROWS: int := 4
  /** The top edge of the fixed bottom row. */
  const BOTTOM_Y: int := GRID_Y + GRID_ROWS * ROW_H
  const TAB_COUNT: int := 3
  const TAB_W: int := SCREEN_W / TAB_COUNT

  /** Right edges of the shift, backspace and space keys of the bottom row. */
  const SHIFT_END: int := 50
  const BACKSPACE_END: int := 100
  const SPACE_END: int := 260

  datatype TouchKind = Down | Drag

  datatype Keyboard = Keyboard(visible: bool, currentTab: int, shift: bool)

  /** Hidden, on the alphanumeric tab, shift off. */
  function Init(): (kb: Keyboard)
    ensures !kb.visible && kb.currentTab == 0 && !kb.shift
  {
    Keyboard(false, 0, false)
  }

  const LAYOUT_ABC: seq<string> := ["1234567890", "qwertyuiop", "asdfghjkl:", "zxcvbnm,._"]
  const LAYOUT_SYM: seq<string> := ["()[]{}", "=+-*/%", "'\"#\\_", "@?!$;"]
  const LAYOUT_MATH: seq<string> := ["<>!=&|", "^~`", "01234", "56789"]

  /** The key rows of a tab; any tab index other than 0 and 1 shows the math layout. */
  function Layout(tab: int): (rows: seq<string>)
    ensures |rows| == GRID_ROWS
    ensures forall r :: 0 <= r < |rows| ==> 0 < |rows[r]| <= 10
  {
    if tab == 0 then LAYOUT_ABC
    else if tab == 1 then LAYOUT_SYM
    else LAYOUT_MATH
  }

  /** Upper-casing of the layouts' characters, which are all ASCII. */
  function Upper(c: char): (u: char)
    ensures 'a' <= c <= 'z' ==> 'A' <= u <= 'Z' && u as int - 'A' as int == c as int - 'a' as int
    ensures !('a' <= c <= 'z') ==> u == c
  {
    if 'a' <= c <= 'z' then (c as int - 32) as char else c
  }

  /** The label a key shows: upper case only on the alphanumeric tab with shift on. */
  function Label(kb: Keyboard, c: char): (l: char)
    ensures l != c ==> kb.currentTab == 0 && kb.shift && 'a' <= c <= 'z'
    ensures kb.currentTab == 0 && kb.shift && 'a' <= c <= 'z' ==>
      'A' <= l <= 'Z' && l as int - 'A' as int == c as int - 'a' as int
  {
    if kb.currentTab == 0 && kb.shift then Upper(c) else c
  }

  /** Every key of a row is equally wide; the division's remainder is not hit. */
  function KeyWidth(row: string): int
    requires |row| > 0
  {
    SCREEN_W / |row|
  }

  /** The keyboard after a touch, and the key it produced, if any. */
  datatype Touch = Touch(kb: Keyboard, key: Option<string>)

  /** Resolves a touch at pixel (x, y). A touch-down on the tab strip selects
      a tab and one on the shift key toggles shift; drags change nothing. */
  function HandleTouch(kb: Keyboard, x: int, y: int, kind: TouchKind): (t: Touch)
    ensures !kb.visible || y < KEYBOARD_Y ==> t == Touch(kb, None)
    ensures t.kb.visible == kb.visible
    ensures t.kb.currentTab != kb.currentTab ==>
      kind == Down && KEYBOARD_Y <= y < GRID_Y && 0 <= t.kb.currentTab < TAB_COUNT
    ensures kb.visible && kind == Down && KEYBOARD_Y <= y < GRID_Y && 0 <= x < TAB_COUNT * TAB_W ==>
      t.kb.currentTab == x / TAB_W
    ensures kb.visible && kind == Down && KEYBOARD_Y <= y < GRID_Y && !(0 <= x < TAB_COUNT * TAB_W) ==>
      t.kb.currentTab == kb.currentTab
    ensures kb.visible && KEYBOARD_Y <= y < GRID_Y ==> t.key == Some("TAB")
    ensures t.kb.shift != kb.shift ==> kind == Down && BOTTOM_Y <= y < BOTTOM_Y + ROW_H && x < SHIFT_END
    ensures kb.visible && kind == Down && BOTTOM_Y <= y < BOTTOM_Y + ROW_H && x < SHIFT_END ==>
      t.kb.shift == !kb.shift
    ensures kb.visible && GRID_Y <= y < BOTTOM_Y ==>
      && t.kb == kb
      && var row := Layout(kb.currentTab)[(y - GRID_Y) / ROW_H];
         var col := x / KeyWidth(row);
         t.key == if 0 <= col < |row| then Some([Label(kb, row[col])]) else None
    ensures kb.visible && BOTTOM_Y <= y < BOTTOM_Y + ROW_H ==>
      t.key == Some(if x < SHIFT_END then "SHIFT"
                    else if x < BACKSPACE_END then "BACKSPACE"
                    else if x < SPACE_END then " "
                    else "ENTER")
    ensures kb.visible && y >= BOTTOM_Y + ROW_H ==> t == Touch(kb, None)
  {
    if !kb.visible || y < KEYBOARD_Y then
      Touch(kb, None)
    else if y < GRID_Y then
      var idx := x / TAB_W;
      Touch(if kind == Down && 0 <= idx < TAB_COUNT then kb.(currentTab := idx) else kb, Some("TAB"))
    else
      var rowIdx := (y - GRID_Y) / ROW_H;
      if 0 <= rowIdx < GRID_ROWS then
        var row := Layout(kb.currentTab)[rowIdx];
        var col := x / KeyWidth(row);
        if 0 <= col < |row| then Touch(kb, Some([Label(kb, row[col])])) else Touch(kb, None)
      else if rowIdx == GRID_ROWS then
        if x < SHIFT_END then
          Touch(if kind == Down then kb.(shift := !kb.shift) else kb, Some("SHIFT"))
        else if x < BACKSPACE_END then Touch(kb, Some("BACKSPACE"))
        else if x < SPACE_END then Touch(kb, Some(" "))
        else Touch(kb, Some("ENTER"))
      else
        Touch(kb, None)
  }

  // ---------------------------------------------------------------------------
  // Agreement with the drawn key rectangles
  // ---------------------------------------------------------------------------

  /** (x, y) lies in the rectangle drawn for key `c` of row `r` of `tab`. */
  predicate InKey(tab: int, r: int, c: int, x: int, y: int)
    requires 0 <= r < GRID_ROWS && 0 <= c < |Layout(tab)[r]|
  {
    var w := KeyWidth(Layout(tab)[r]);
    && c * w <= x < (c + 1) * w
    && GRID_Y + r * ROW_H <= y < GRID_Y + (r + 1) * ROW_H
  }

  lemma MulMonotone(a: int, b: int, w: int)
    requires a <= b && w > 0
    ensures a * w <= b * w
  {
    assert b * w - a * w == (b - a) * w;
  }

  lemma DivInRange(x: int, w: int, c: int)
    requires w > 0 && c * w <= x < (c + 1) * w
    ensures x / w == c
  {
    var q := x / w;
    DivBounds(x, w);
    if q < c {
      MulMonotone(q + 1, c, w);
    } else if q > c {
      MulMonotone(c + 1, q, w);
    }
  }

  lemma DivBounds(x: int, w: int)
    requires w > 0
    ensures (x / w) * w <= x < (x / w + 1) * w
  {
    assert x == (x / w) * w + x % w;
  }

  /** A touch inside a drawn key returns that key's label. */
  lemma TouchInKeyHitsKey(kb: Keyboard, x: int, y: int, kind: TouchKind, r: int, c: int)
    requires kb.visible
    requires 0 <= r < GRID_ROWS && 0 <= c < |Layout(kb.currentTab)[r]|
    requires InKey(kb.currentTab, r, c, x, y)
    ensures HandleTouch(kb, x, y, kind) == Touch(kb, Some([Label(kb, Layout(kb.currentTab)[r][c])]))
  {
    var row := Layout(kb.currentTab)[r];
    DivInRange(y - GRID_Y, ROW_H, r);
    DivInRange(x, KeyWidth(row), c);
  }

  /** A touch on the key grid that returns a key lies inside that key's drawn rectangle. */
  lemma KeyHitIsInKey(kb: Keyboard, x: int, y: int, kind: TouchKind)
    requires kb.visible && GRID_Y <= y < BOTTOM_Y
    requires HandleTouch(kb, x, y, kind).key.Some?
    ensures var r := (y - GRID_Y) / ROW_H;
      var c := x / KeyWidth(Layout(kb.currentTab)[r]);
      && 0 <= r < GRID_ROWS && 0 <= c < |Layout(kb.currentTab)[r]|
      && InKey(kb.currentTab, r, c, x, y)
      && HandleTouch(kb, x, y, kind).key == Some([Label(kb, Layout(kb.currentTab)[r][c])])
  {
    var r := (y - GRID_Y) / ROW_H;
    DivBounds(y - GRID_Y, ROW_H);
    var w := KeyWidth(Layout(kb.currentTab)[r]);
    DivBounds(x, w);
  }

  /** Three tabs of 106 pixels leave the last two pixels of the strip
      unassigned: a touch there selects no tab. */
  lemma TabStripGap(kb: Keyboard, x: int, y: int)
    requires kb.visible && KEYBOARD_Y <= y < GRID_Y
    requires TAB_COUNT * TAB_W <= x < SCREEN_W
    ensures TAB_COUNT * TAB_W == SCREEN_W - 2
    ensures HandleTouch(kb, x, y, Down) == Touch(kb, Some("TAB"))
  {
  }

  /** The keyboard starts hidden, so no touch reaches it. */
  lemma InitIgnoresTouches(x: int, y: int, kind: TouchKind)
    ensures HandleTouch(Init(), x, y, kind) == Touch(Init(), None)
  {
  }

  /** On the alphanumeric tab with shift on, the first key of the letter row
      types an upper-case Q. */
  lemma ShiftedFirstLetter()
    ensures HandleTouch(Keyboard(true, 0, true), 0, GRID_Y + ROW_H, Down).key == Some("Q")
  {
  }

}
