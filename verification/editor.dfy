/**
 The editor session: the document and cursor, the vertical scroll offset,
 the virtual keyboard and the status message, and the dispatcher that turns
 one input event into a new session state.
 */
module Editor {

  import opened Basics
  import LB = LineBuffer
  import VK = VirtualKeyboard
  import TF = TextFile
  import PM = PixelMap

  const HEADER_H: int := 30
  const TEXT_LINE_H: int := 20
  /** Width of the Load, Save and keyboard-toggle regions of the header band. */
  const MENU_W: int := 60
  const FILENAME: string := "example.py"
  /** Frames a status message stays on screen. */
  const MSG_FRAMES: int := 50

  datatype State = State(
    buf: LB.Buffer,
    vy: int,
    kb: VK.Keyboard,
    msg: string,
    msgTimer: int)

  /** What the hardware delivers: a key code for key presses, a pixel for touches. */
  datatype Key = Exp | Exe | Del | Up | Down | Left | Right | Dot | OtherKey

  datatype Event = TouchDown(x: int, y: int) | TouchDrag(x: int, y: int) | KeyDown(key: Key) | NoEvent

  /** The outside world an event may consult: the file's content when it can
      be read (None when opening or reading fails), whether writing succeeds,
      and the display library's width of a rendered string. */
  datatype Env = Env(fileContent: Option<string>, writeOk: bool, width: string -> int)

  predicate Inv(e: State) {
    LB.Valid(e.buf)
  }

  /** One empty line, cursor and scroll at the top, keyboard hidden, no message. */
  function Init(): (e: State)
    ensures Inv(e)
  {
    State(LB.Buffer([""], 0, 0), 0, VK.Init(), "", 0)
  }

  /** Loading: the file's text, with "\r\n" turned into "\n", split at every
      newline, replaces the document and the cursor goes to the top; when the
      file cannot be read the document stays as it was. */
  function LoadFile(e: State, content: Option<string>): (r: State)
    requires |e.buf.lines| > 0
    ensures Inv(r)
    ensures r.msgTimer == MSG_FRAMES && r.vy == e.vy && r.kb == e.kb
    ensures content.None? ==> r.buf == LB.Clamp(e.buf) && r.msg == "File not found"
    ensures content.Some? ==>
      && r.buf == LB.Buffer(TF.SplitLines(TF.Normalize(content.value)), 0, 0)
      && r.msg == "Loaded " + FILENAME
  {
    var e1 := match content
      case Some(text) =>
        var lines := TF.SplitLines(TF.Normalize(text));
        e.(buf := LB.Buffer(lines, 0, 0), msg := "Loaded " + FILENAME)
      case None =>
        e.(msg := "File not found");
    var e2 := e1.(msgTimer := MSG_FRAMES);
    e2.(buf := LB.Clamp(e2.buf))
  }

  /** The text saving writes: the lines joined with single newlines. */
  function SavedText(e: State): string
    requires |e.buf.lines| > 0
  {
    TF.JoinLines(e.buf.lines)
  }

  /** Saving changes only the status message. */
  function SaveFile(e: State, writeOk: bool): (r: State)
    ensures r.buf == e.buf && r.vy == e.vy && r.kb == e.kb
    ensures r.msgTimer == MSG_FRAMES
    ensures r.msg == if writeOk then "Saved " + FILENAME else "Save Error"
  {
    e.(msg := if writeOk then "Saved " + FILENAME else "Save Error", msgTimer := MSG_FRAMES)
  }

  /** The keyboard-toggle key: only the keyboard's visibility flips. */
  function ToggleKeyboard(e: State): (r: State)
    ensures r.kb.visible != e.kb.visible
    ensures r.kb.currentTab == e.kb.currentTab && r.kb.shift == e.kb.shift
    ensures r.buf == e.buf && r.vy == e.vy && r.msg == e.msg && r.msgTimer == e.msgTimer
  {
    e.(kb := e.kb.(visible := !e.kb.visible))
  }

  /** The height of the text area: the screen below the header, less the keyboard when shown. */
  function TextAreaHeight(kbVisible: bool): int {
    VK.SCREEN_H - HEADER_H - (if kbVisible then VK.KEYBOARD_H else 0)
  }

  /** How many whole lines fit in the text area. */
  function LinesVisible(kbVisible: bool): (n: int)
    ensures n >= 1
  {
    TextAreaHeight(kbVisible) / TEXT_LINE_H
  }

  /** Acts on the key the virtual keyboard resolved: a one-character label is
      typed, BACKSPACE and ENTER edit, every other label has already done its
      work on the keyboard state. */
  function ApplyKey(b: LB.Buffer, key: Option<string>): (r: LB.Buffer)
    requires LB.Valid(b)
    ensures LB.Valid(r)
    ensures key.Some? && |key.value| == 1 ==> r == LB.Insert(b, key.value[0])
    ensures key == Some("BACKSPACE") ==> r == LB.Delete(b)
    ensures key == Some("ENTER") ==> r == LB.NewLine(b)
    ensures key.None? || key == Some("TAB") || key == Some("SHIFT") ==> r == b
  {
    match key
    case None => b
    case Some(name) =>
      if |name| == 1 then LB.Insert(b, name[0])
      else if name == "BACKSPACE" then LB.Delete(b)
      else if name == "ENTER" then LB.NewLine(b)
      else b
  }

  /** A touch or drag at pixel (x, y): the keyboard area first, then the
      header band (touch-down only), then the text area, where a touch on an
      existing line puts the cursor at the column nearest to x. */
  function Touch(e: State, x: int, y: int, kind: VK.TouchKind, env: Env): (r: State)
    requires Inv(e)
    ensures Inv(r) && r.vy == e.vy
    ensures kind == VK.Drag ==> r.buf.lines == e.buf.lines && r.kb == e.kb
    ensures e.kb.visible && y >= VK.KEYBOARD_Y ==>
      && r.kb == VK.HandleTouch(e.kb, x, y, kind).kb
      && r.buf == (if kind == VK.Down then ApplyKey(e.buf, VK.HandleTouch(e.kb, x, y, kind).key) else e.buf)
    ensures !(e.kb.visible && y >= VK.KEYBOARD_Y) && HEADER_H <= y <= HEADER_H + TextAreaHeight(e.kb.visible) ==>
      var row := (y - HEADER_H) / TEXT_LINE_H + e.vy;
      && r.kb == e.kb && r.buf.lines == e.buf.lines
      && (0 <= row < |e.buf.lines| ==>
            r.buf.cy == row && r.buf.cx == PM.CxFromPx(e.buf.lines[row], x, env.width))
      && (!(0 <= row < |e.buf.lines|) ==> r.buf == e.buf)
    ensures !(e.kb.visible && y >= VK.KEYBOARD_Y) && y < HEADER_H && kind == VK.Down ==>
      r == if x > VK.SCREEN_W - MENU_W then ToggleKeyboard(e)
           else if x < MENU_W then LoadFile(e, env.fileContent)
           else if x < 2 * MENU_W then SaveFile(e, env.writeOk)
           else e
    ensures !(y < HEADER_H && kind == VK.Down && !(e.kb.visible && y >= VK.KEYBOARD_Y)) ==>
      r.msg == e.msg && r.msgTimer == e.msgTimer
    ensures !(e.kb.visible && y >= VK.KEYBOARD_Y) && y < HEADER_H && kind == VK.Drag ==> r == e
  {
    if e.kb.visible && y >= VK.KEYBOARD_Y then
      if kind == VK.Down then
        var t := VK.HandleTouch(e.kb, x, y, kind);
        e.(kb := t.kb, buf := ApplyKey(e.buf, t.key))
      else
        e
    else if y < HEADER_H && kind == VK.Down then
      if x > VK.SCREEN_W - MENU_W then ToggleKeyboard(e)
      else if x < MENU_W then LoadFile(e, env.fileContent)
      else if x < 2 * MENU_W then SaveFile(e, env.writeOk)
      else e
    else
      var e1 :=
        if HEADER_H <= y <= HEADER_H + TextAreaHeight(e.kb.visible) then
          var row := (y - HEADER_H) / TEXT_LINE_H + e.vy;
          if 0 <= row < |e.buf.lines| then
            var cx := PM.CxFromPx(e.buf.lines[row], x, env.width);
            e.(buf := LB.Clamp(LB.Buffer(e.buf.lines, row, cx)))
          else e
        else e;
      e1.(buf := LB.Clamp(e1.buf))
  }

  /** A key press on the calculator's own keypad. */
  function Press(e: State, k: Key): (r: State)
    requires Inv(e)
    ensures Inv(r) && r.vy == e.vy
    ensures k != Exp ==> r.kb == e.kb
    ensures k == Exp ==> r.kb == e.kb.(visible := !e.kb.visible) && r.buf == e.buf
    ensures r.msg == e.msg && r.msgTimer == e.msgTimer
    ensures k == OtherKey ==> r.buf == e.buf
    ensures k == Up ==> r.buf == LB.MoveUp(e.buf)
    ensures k == Down ==> r.buf == LB.MoveDown(e.buf)
    ensures k == Left ==> r.buf == LB.MoveLeft(e.buf)
    ensures k == Right ==> r.buf == LB.MoveRight(e.buf)
    ensures k == Exe ==> r.buf == LB.NewLine(e.buf)
    ensures k == Del ==> r.buf == LB.Delete(e.buf)
    ensures k == Dot ==> r.buf == LB.Insert(e.buf, '.')
  {
    var e1 := match k
      case Exp => ToggleKeyboard(e)
      case Exe => e.(buf := LB.NewLine(e.buf))
      case Del => e.(buf := LB.Delete(e.buf))
      case Up => e.(buf := LB.MoveUp(e.buf))
      case Down => e.(buf := LB.MoveDown(e.buf))
      case Left => e.(buf := LB.MoveLeft(e.buf))
      case Right => e.(buf := LB.MoveRight(e.buf))
      case Dot => e.(buf := LB.Insert(e.buf, '.'))
      case OtherKey => e;
    e1.(buf := LB.Clamp(e1.buf))
  }

  /** Dispatches one event. No branch scrolls the view, and every branch
      leaves the cursor inside the document. */
  function ProcessEvent(e: State, ev: Event, env: Env): (r: State)
    requires Inv(e)
    ensures Inv(r) && r.vy == e.vy
    ensures ev.TouchDrag? ==> r.buf.lines == e.buf.lines && r.kb == e.kb
    ensures ev == NoEvent ==> r == e
  {
    match ev
    case TouchDown(x, y) => Touch(e, x, y, VK.Down, env)
    case TouchDrag(x, y) => Touch(e, x, y, VK.Drag, env)
    case KeyDown(k) => Press(e, k)
    case NoEvent => e.(buf := LB.Clamp(e.buf))
  }

  /** The scroll rule applied before each redraw: the smallest change of the
      first visible row that brings the cursor row into the window. */
  function AutoScroll(cy: int, vy: int, linesVis: int): (vy': int)
    ensures linesVis >= 1 ==> vy' <= cy < vy' + linesVis
    ensures vy <= cy < vy + linesVis ==> vy' == vy
    ensures linesVis >= 1 ==> forall v :: v <= cy < v + linesVis ==> Dist(vy', vy) <= Dist(v, vy)
  {
    var vy1 := if cy < vy then cy else vy;
    if cy >= vy1 + linesVis then cy - linesVis + 1 else vy1
  }

  /** The state changes a redraw makes: only the scroll offset. */
  function Scroll(e: State): (r: State)
    requires Inv(e)
    ensures Inv(r) && r == e.(vy := r.vy)
    ensures r.vy <= r.buf.cy < r.vy + LinesVisible(r.kb.visible)
    ensures e.vy >= 0 ==> r.vy >= 0
  {
    e.(vy := AutoScroll(e.buf.cy, e.vy, LinesVisible(e.kb.visible)))
  }

  /** A run of the main loop: each event is dispatched, then the view redrawn. */
  function Run(e: State, evs: seq<Event>, env: Env): (r: State)
    requires Inv(e)
    ensures Inv(r)
    ensures |evs| > 0 ==> r.vy <= r.buf.cy < r.vy + LinesVisible(r.kb.visible)
    ensures e.vy >= 0 ==> r.vy >= 0
    decreases |evs|
  {
    if evs == [] then e
    else Run(Scroll(ProcessEvent(e, evs[0], env)), evs[1..], env)
  }

  // ---------------------------------------------------------------------------
  // Properties
  // ---------------------------------------------------------------------------

  /** Saving and then loading the saved text restores the document, with the
      cursor at the top, when no line holds a newline and no line but the
      last ends in a carriage return. */
  lemma SaveThenLoad(e: State)
    requires Inv(e)
    requires forall k :: 0 <= k < |e.buf.lines| ==> TF.NoNewline(e.buf.lines[k])
    requires forall k :: 0 <= k < |e.buf.lines| - 1 && |e.buf.lines[k]| > 0 ==>
      e.buf.lines[k][|e.buf.lines[k]| - 1] != '\r'
    ensures LoadFile(SaveFile(e, true), Some(SavedText(e))).buf == LB.Buffer(e.buf.lines, 0, 0)
  {
    TF.JoinNoCRLF(e.buf.lines);
    TF.NormalizeNoCRLF(SavedText(e));
    TF.SplitJoin(e.buf.lines);
  }

  /** A line that ends in a carriage return loses it on the way through the
      file: the join puts a newline right after it, and loading reads the
      pair as one line break. */
  lemma SaveThenLoadLossy()
    ensures var e := State(LB.Buffer(["a\r", "b"], 0, 0), 0, VK.Init(), "", 0);
      LoadFile(SaveFile(e, true), Some(SavedText(e))).buf.lines == ["a", "b"]
  {
    var e := State(LB.Buffer(["a\r", "b"], 0, 0), 0, VK.Init(), "", 0);
    TF.CarriageReturnLost();
    assert SavedText(e) == TF.JoinLines(["a\r", "b"]);
  }

  /** Toggling the keyboard twice restores the session. */
  lemma ToggleTwice(e: State)
    ensures ToggleKeyboard(ToggleKeyboard(e)) == e
  {
  }

  /** Loading produces lines without newlines, whatever the file holds. */
  lemma LoadedLinesHaveNoNewline(e: State, text: string)
    requires |e.buf.lines| > 0
    ensures forall k :: 0 <= k < |LoadFile(e, Some(text)).buf.lines| ==>
      '\n' !in LoadFile(e, Some(text)).buf.lines[k]
  {
    TF.SplitLinesHaveNoNewline(TF.Normalize(text));
  }

  /** A missing file at start-up leaves the single empty line and shows a message. */
  lemma LoadMissingFileAtStart()
    ensures var r := LoadFile(Init(), None);
      r.buf.lines == [""] && r.msg != "" && r.msgTimer > 0
  {
  }

}
