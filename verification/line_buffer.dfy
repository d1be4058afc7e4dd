/**
 The document and its cursor: a non-empty sequence of lines and a
 (row, column) position. Every editing operation clamps the cursor on entry
 and on exit, so it never leaves the document.
 */
module LineBuffer {

  import opened Basics

  /** `cy` is the row, `cx` the column; both are plain integers because the
      navigation keys move them past the edges before clamping pulls them back. */
  datatype Buffer = Buffer(lines: seq<string>, cy: int, cx: int)

  /** The cursor invariant: the document has a line, the row names one of
      them and the column lies within it (possibly just after its last character). */
  predicate Valid(b: Buffer) {
    && |b.lines| > 0
    && 0 <= b.cy < |b.lines|
    && 0 <= b.cx <= |b.lines[b.cy]|
  }

  /** Pulls the cursor back into the document, row first, then column. */
  function Clamp(b: Buffer): (r: Buffer)
    requires |b.lines| > 0
    ensures Valid(r) && r.lines == b.lines
    ensures Valid(b) ==> r == b
    ensures 0 <= b.cy < |b.lines| ==> r.cy == b.cy
    ensures forall row :: 0 <= row < |b.lines| ==> Dist(r.cy, b.cy) <= Dist(row, b.cy)
    ensures forall col :: 0 <= col <= |b.lines[r.cy]| ==> Dist(r.cx, b.cx) <= Dist(col, b.cx)
  {
    var cy := if b.cy < 0 then 0 else b.cy;
    var cy := if cy >= |b.lines| then |b.lines| - 1 else cy;
    var len := |b.lines[cy]|;
    var cx := if b.cx < 0 then 0 else b.cx;
    var cx := if cx > len then len else cx;
    Buffer(b.lines, cy, cx)
  }

  /** Inserting a character at the (clamped) cursor and stepping past it. */
  function Insert(b: Buffer, c: char): (r: Buffer)
    requires |b.lines| > 0
    ensures Valid(r) && |r.lines| == |b.lines|
    ensures var k := Clamp(b);
      && r.cy == k.cy && r.cx == k.cx + 1
      && r.lines[r.cy] == k.lines[k.cy][..k.cx] + [c] + k.lines[k.cy][k.cx..]
      && forall row :: 0 <= row < |b.lines| && row != k.cy ==> r.lines[row] == b.lines[row]
  {
    var k := Clamp(b);
    var line := k.lines[k.cy];
    Clamp(Buffer(k.lines[k.cy := line[..k.cx] + [c] + line[k.cx..]], k.cy, k.cx + 1))
  }

  /** Backspace: removes the character before the cursor, or joins the line
      to the previous one when the cursor is at its start; nothing happens at
      the very start of the document. */
  function Delete(b: Buffer): (r: Buffer)
    requires |b.lines| > 0
    ensures Valid(r)
    ensures var k := Clamp(b);
      && (k.cx > 0 ==>
            && r.lines == k.lines[k.cy := k.lines[k.cy][..k.cx - 1] + k.lines[k.cy][k.cx..]]
            && r.cy == k.cy && r.cx == k.cx - 1)
      && (k.cx == 0 && k.cy > 0 ==>
            && |r.lines| == |k.lines| - 1
            && r.lines[k.cy - 1] == k.lines[k.cy - 1] + k.lines[k.cy]
            && (forall row :: 0 <= row < k.cy - 1 ==> r.lines[row] == k.lines[row])
            && (forall row :: k.cy <= row < |r.lines| ==> r.lines[row] == k.lines[row + 1])
            && r.cy == k.cy - 1 && r.cx == |k.lines[k.cy - 1]|)
      && (k.cx == 0 && k.cy == 0 ==> r == k)
  {
    var k := Clamp(b);
    if k.cx > 0 then
      var line := k.lines[k.cy];
      Clamp(Buffer(k.lines[k.cy := line[..k.cx - 1] + line[k.cx..]], k.cy, k.cx - 1))
    else if k.cy > 0 then
      var curr := k.lines[k.cy];
      var rest := k.lines[..k.cy] + k.lines[k.cy + 1..];
      var cy := k.cy - 1;
      var cx := |rest[cy]|;
      Clamp(Buffer(rest[cy := rest[cy] + curr], cy, cx))
    else
      Clamp(k)
  }

  /** Enter: splits the line at the cursor; the remainder becomes a new line
      just below and the cursor moves to its start. */
  function NewLine(b: Buffer): (r: Buffer)
    requires |b.lines| > 0
    ensures Valid(r) && |r.lines| == |b.lines| + 1
    ensures var k := Clamp(b);
      && r.lines[k.cy] == k.lines[k.cy][..k.cx]
      && r.lines[k.cy + 1] == k.lines[k.cy][k.cx..]
      && (forall row :: 0 <= row < k.cy ==> r.lines[row] == b.lines[row])
      && (forall row :: k.cy + 1 < row < |r.lines| ==> r.lines[row] == b.lines[row - 1])
      && r.cy == k.cy + 1 && r.cx == 0
  {
    var k := Clamp(b);
    var line := k.lines[k.cy];
    var rem := line[k.cx..];
    var lines := k.lines[k.cy := line[..k.cx]];
    var cy := k.cy + 1;
    Clamp(Buffer(lines[..cy] + [rem] + lines[cy..], cy, 0))
  }

  /** The up arrow: one row up, column re-clamped (no remembered column). */
  function MoveUp(b: Buffer): (r: Buffer)
    requires |b.lines| > 0
    ensures Valid(r) && r.lines == b.lines
    ensures Valid(b) ==> r.cy == if b.cy > 0 then b.cy - 1 else 0
    ensures Valid(b) ==> r.cx == if b.cx <= |b.lines[r.cy]| then b.cx else |b.lines[r.cy]|
  {
    Clamp(b.(cy := b.cy - 1))
  }

  /** The down arrow: one row down, column re-clamped. */
  function MoveDown(b: Buffer): (r: Buffer)
    requires |b.lines| > 0
    ensures Valid(r) && r.lines == b.lines
    ensures Valid(b) ==> r.cy == if b.cy < |b.lines| - 1 then b.cy + 1 else b.cy
    ensures Valid(b) ==> r.cx == if b.cx <= |b.lines[r.cy]| then b.cx else |b.lines[r.cy]|
  {
    Clamp(b.(cy := b.cy + 1))
  }

  /** The left arrow: one column left, wrapping to the end of the previous line. */
  function MoveLeft(b: Buffer): (r: Buffer)
    requires Valid(b)
    ensures Valid(r) && r.lines == b.lines
    ensures b.cx > 0 ==> r.cy == b.cy && r.cx == b.cx - 1
    ensures b.cx == 0 && b.cy > 0 ==> r.cy == b.cy - 1 && r.cx == |b.lines[b.cy - 1]|
    ensures b.cx == 0 && b.cy == 0 ==> r == b
  {
    var cx := b.cx - 1;
    if cx < 0 && b.cy > 0 then
      Clamp(Buffer(b.lines, b.cy - 1, |b.lines[b.cy - 1]|))
    else
      Clamp(b.(cx := cx))
  }

  /** The right arrow: one column right, wrapping to the start of the next line. */
  function MoveRight(b: Buffer): (r: Buffer)
    requires Valid(b)
    ensures Valid(r) && r.lines == b.lines
    ensures b.cx < |b.lines[b.cy]| ==> r.cy == b.cy && r.cx == b.cx + 1
    ensures b.cx == |b.lines[b.cy]| && b.cy < |b.lines| - 1 ==> r.cy == b.cy + 1 && r.cx == 0
    ensures b.cx == |b.lines[b.cy]| && b.cy == |b.lines| - 1 ==> r == b
  {
    var cx := b.cx + 1;
    if cx > |b.lines[b.cy]| && b.cy < |b.lines| - 1 then
      Clamp(Buffer(b.lines, b.cy + 1, 0))
    else
      Clamp(b.(cx := cx))
  }

  // ---------------------------------------------------------------------------
  // Inverse pairs
  // ---------------------------------------------------------------------------

  /** Backspace undoes a typed character. */
  lemma InsertThenDelete(b: Buffer, c: char)
    requires |b.lines| > 0
    ensures Delete(Insert(b, c)) == Clamp(b)
  {
    var k := Clamp(b);
    var line := k.lines[k.cy];
    var i := Insert(b, c);
    var l2 := i.lines[i.cy];
    assert l2[..k.cx] == line[..k.cx];
    assert l2[k.cx + 1..] == line[k.cx..];
    assert line[..k.cx] + line[k.cx..] == line;
    assert Delete(i).lines == k.lines;
  }

  /** Retyping the character backspace removed restores the document. */
  lemma DeleteThenInsert(b: Buffer)
    requires Valid(b) && b.cx > 0
    ensures Insert(Delete(b), b.lines[b.cy][b.cx - 1]) == b
  {
    var line := b.lines[b.cy];
    var d := Delete(b);
    var l2 := d.lines[d.cy];
    assert l2[..b.cx - 1] == line[..b.cx - 1];
    assert l2[b.cx - 1..] == line[b.cx..];
    assert line[..b.cx - 1] + [line[b.cx - 1]] + line[b.cx..] == line;
    assert Insert(d, line[b.cx - 1]).lines == b.lines;
  }

  /** Backspace at the start of a line undoes Enter. */
  lemma NewLineThenDelete(b: Buffer)
    requires |b.lines| > 0
    ensures Delete(NewLine(b)) == Clamp(b)
  {
    var k := Clamp(b);
    var line := k.lines[k.cy];
    var n := NewLine(b);
    var d := Delete(n);
    assert line[..k.cx] + line[k.cx..] == line;
    assert d.lines[k.cy] == line;
    assert d.lines == k.lines;
  }

  /** Enter at the join point undoes a line merge. */
  lemma DeleteThenNewLine(b: Buffer)
    requires Valid(b) && b.cx == 0 && b.cy > 0
    ensures NewLine(Delete(b)) == b
  {
  }

  /** Right undoes Left, except at the start of the document. */
  lemma LeftThenRight(b: Buffer)
    requires Valid(b) && (b.cy > 0 || b.cx > 0)
    ensures MoveRight(MoveLeft(b)) == b
  {
  }

  /** Left undoes Right, except at the end of the document. */
  lemma RightThenLeft(b: Buffer)
    requires Valid(b) && (b.cy < |b.lines| - 1 || b.cx < |b.lines[b.cy]|)
    ensures MoveLeft(MoveRight(b)) == b
  {
  }

}
