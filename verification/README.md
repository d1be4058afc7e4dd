# ced — a verified model of a calculator-screen text editor

`ced` is a small editor for Python files on a touch-screen calculator
(320×528 pixels). The whole program lives in `ced.py`. This project models
its logic as pure Dafny functions over immutable datatypes. Drawing,
storage, glyph metrics and the hardware event loop become parameters or are
left out. There are four parts:

- **Tokenizer** (`tokenizer.dfy`): the highlighter's single left-to-right
  scan, which splits a line into (segment, category) pairs. Comments, quoted
  strings (terminated or not), one-character operators and separators, single
  blanks, and maximal words each become a segment. A word is then classed as
  number, keyword or plain. The six colour constants become the `Category`
  enumeration, and the result list becomes the `Tokens` list type. The set of
  24 reserved words becomes a numbered list (`KeywordAt`), and membership is
  a search through it. A declarative predicate, `TokensFrom`, says what a
  correct cut of a line looks like, and the scanner is proved to be the one
  cut it admits.
- **Line buffer** (`line_buffer.dfy`): the document (a non-empty sequence
  of lines) and the cursor `(cy, cx)`. Covers clamping, insert, backspace
  (which deletes a character or merges the line into the one above),
  newline (split) and the four arrow keys. Every editing operation clamps on
  entry and exit. The inverse pairs are proved: insert/backspace,
  newline/backspace, left/right.
- **Virtual keyboard** (`virtual_keyboard.dfy`): the three layout tables,
  the tab and shift state, and hit-testing of a pixel against the tab strip,
  the four-row key grid and the fixed bottom row. For the key grid,
  hit-testing is proved to agree with the key rectangles that the drawing
  code lays out. The bottom row's boundaries (50, 100 and 260 pixels) are
  stated as constants in the contract.
- **Editor session** (`editor.dfy`, `pixel_map.dfy`, `text_file.dfy`):
  - the event dispatcher, which tries the keyboard area, then the header
    band, then the text area;
  - the mapping from a tap's x position to a column (a greedy scan of prefix
    widths);
  - the auto-scroll rule applied before each redraw;
  - the pure parts of loading and saving: normalising `\r\n`, splitting at
    newlines, joining with newlines.

The outside world is passed in as an `Env` value. It holds what reading the
file yields (`None` when opening or reading fails), whether writing
succeeds, and the display library's string-width function `width`. Nothing
is assumed about `width`. Only the lemma `NearestUnderStrictWidths` adds an
assumption: that prefix widths grow strictly.

Three consequences of the code are proved:

- Each tab of the strip is `320 // 3 = 106` pixels wide, so a touch at
  x = 318 or 319 in the strip selects no tab (`TabStripGap`).
- The pixel-to-column scan finds the nearest column when prefix widths grow
  strictly (`NearestUnderStrictWidths`). A zero-width character can stop it
  before the nearest column (`PlateauStopsEarly`).
- Saving joins the lines with `\n` and loading turns `\r\n` into `\n`, so
  a line other than the last that ends in `\r` loses it on a save and
  reload (`SaveThenLoadLossy`).

## Model

| member | source | states |
|---|---|---|
| Tokenizer.QuoteEnd | ced.py:91-92 | the scan for the closing quote stops at the first occurrence of that quote at or after the start, or at the end of the line |
| Tokenizer.WordEnd | ced.py:102-107 | a word runs over word characters only and stops at the first operator, separator, blank, `#` or quote |
| Tokenizer.StringEnd | ced.py:87-94 | a string segment ends just after the matching quote, or at the end of the line when unterminated |
| Tokenizer.FirstToken | ced.py:82-114 | the segment produced at each position is a non-empty slice of the line starting there, and a comment segment runs to the end of the line |
| Tokenizer.FirstTokenValid | ced.py:82-114 | the segment produced at each position is valid for its category: `#` to the end of the line, a string literal, one operator or separator character, one blank, or a maximal word classed by its first character and the reserved words |
| Tokenizer.SpanIsFirstToken | ced.py:82-114 | conversely, any span starting at a position that is valid for its category is exactly the segment the scanner produces there |
| Tokenizer.CutsUnique | ced.py:77-115 | two cuts of the same line that both satisfy the declarative description are equal |
| Tokenizer.Tokenize | ced.py:73-115 | `tokenize_line`: concatenating the segment texts gives back exactly the line |
| Tokenizer.TokenizeFrom | ced.py:81-114 | the scan loop from position i produces no segment exactly when i is the end of the line; TokenizeWellFormed and TokensFromUnique characterize its output |
| Tokenizer.WordCategory | ced.py:108-114 | a word is a number exactly when it starts with a digit, a keyword exactly when it does not and is a reserved word, and plain otherwise |
| Tokenizer.IsDigit | ced.py:70-71 | `is_digit` holds exactly for the ten characters `0` to `9` |
| Tokenizer.TokenizeWellFormed | ced.py:73-115 | the scanner's output cuts the line into consecutive non-empty spans, each valid for its category |
| Tokenizer.TokensFromUnique | ced.py:73-115 | any cut satisfying the declarative description equals the scanner's output |
| Tokenizer.TokenizeCharacterized | ced.py:73-115 | a token sequence is the line's tokenization if and only if it satisfies the declarative description |
| Tokenizer.SpanCategory | ced.py:84-114 | a span is a comment exactly when it starts with `#`, and then reaches the line end; a span is a number exactly when it starts with a digit; a keyword is a reserved word |
| Tokenizer.CategoriesFrom | ced.py:84-114 | in a valid cut every segment is non-empty, a segment is a comment exactly when it starts with `#` and then it is the last one, a segment is a number exactly when it starts with a digit, and a keyword segment is a reserved word |
| Tokenizer.TokenizeCategories | ced.py:70-115 | the same category promises hold for the scanner's output on every line |
| Tokenizer.KeywordFromFinds | ced.py:42-46 | the search through the reserved-word list finds every word at or after its position |
| Tokenizer.KeywordAlone | ced.py:101-114 | a reserved word on its own is highlighted as exactly one keyword segment |
| LineBuffer.Clamp | ced.py:240-247 | with a non-empty document the cursor lands inside it, and a valid cursor is left alone; the row and column chosen are the nearest valid ones |
| LineBuffer.Insert | ced.py:273-278 | the character is spliced in at the clamped cursor, the column advances by one, the line count and all other lines are unchanged |
| LineBuffer.Delete | ced.py:280-291 | backspace removes the character left of the cursor, or merges the line into the previous one with the cursor at the join, or does nothing at (0, 0) |
| LineBuffer.NewLine | ced.py:293-301 | the line is split at the cursor, the count grows by one, other lines keep their place, the cursor goes to the start of the new line |
| LineBuffer.MoveUp | ced.py:353-355 | the up arrow moves one row up and stops at row 0; the column stays unless the new row is shorter, and then goes to its end |
| LineBuffer.MoveDown | ced.py:356-358 | the down arrow moves one row down and stops at the last row; the column stays unless the new row is shorter, and then goes to its end |
| LineBuffer.MoveLeft | ced.py:359-364 | the left arrow moves one column left, wraps to the end of the previous line, and does nothing at (0, 0) |
| LineBuffer.MoveRight | ced.py:365-370 | the right arrow moves one column right, wraps to the start of the next line, and does nothing at the end of the last line |
| LineBuffer.InsertThenDelete | ced.py:273-291 | typing a character and then pressing backspace restores the document and the (clamped) cursor |
| LineBuffer.DeleteThenInsert | ced.py:273-291 | retyping the character that backspace removed restores the document and cursor |
| LineBuffer.NewLineThenDelete | ced.py:280-301 | a newline at column k followed by backspace restores the lines and the cursor (cy, k) |
| LineBuffer.DeleteThenNewLine | ced.py:280-301 | a newline where backspace merged two lines splits them back and restores the cursor |
| LineBuffer.LeftThenRight | ced.py:359-370 | away from the document start, right undoes left |
| LineBuffer.RightThenLeft | ced.py:359-370 | away from the document end, left undoes right |
| TextFile.Normalize | ced.py:254 | replacing `\r\n` shortens the text by exactly the number of `\r\n` pairs, changes nothing in text without `\r`, and introduces no character other than newlines |
| TextFile.NormalizeCRLF | ced.py:254 | a text written with Windows line endings normalizes back to the text |
| TextFile.NormalizeNoCRLF | ced.py:254 | a text without a `\r\n` pair is left unchanged |
| TextFile.JoinLines | ced.py:267 | the joined text is the lines' total length plus one newline per neighbouring pair, and starts with the first line |
| TextFile.JoinNoCRLF | ced.py:254-267 | joining newline-free lines creates a `\r\n` pair only where a line other than the last ends in `\r` |
| TextFile.CarriageReturnLost | ced.py:254-267 | the lines `["a\r", "b"]`, joined, normalized and split, come back as `["a", "b"]` |
| TextFile.SplitLines | ced.py:254-255 | splitting always yields at least one line, so the empty-list fallback never applies |
| TextFile.SplitLinesHaveNoNewline | ced.py:254 | no line produced by the split contains a newline |
| TextFile.JoinSplit | ced.py:254-267 | joining the split lines with newlines gives back the text |
| TextFile.SplitJoin | ced.py:254-267 | splitting the joined text gives back the lines when no line holds a newline |
| PixelMap.Scan | ced.py:309-320 | the scan returns a column within the line that ends a strictly improving run of prefixes, at a local minimum of the distance to the tap |
| PixelMap.CxFromPx | ced.py:303-320 | for any width function the column lies in 0..len(line), is 0 left of the margin, and is the end of the first strictly improving run otherwise |
| PixelMap.NearestUnderStrictWidths | ced.py:303-320 | when prefix widths grow strictly, the scan's column is at least as close to the tap as every column of the line |
| PixelMap.PlateauStopsEarly | ced.py:312-319 | with equal widths for consecutive prefixes the scan stops early and misses a closer column |
| VirtualKeyboard.Layout | ced.py:129-135 | every tab has four non-empty rows of at most ten keys |
| VirtualKeyboard.HandleTouch | ced.py:188-223 | a hidden keyboard or a touch above it yields no key and no change; only a touch-down on the tab strip changes the tab, always to 0..2; only a touch-down on the shift key toggles shift; a grid touch returns the label at the computed row and column, upper-cased only on tab 0 with shift, and no key when the column falls outside the row; a touch-down on the strip outside the three tabs keeps the tab; the bottom row returns SHIFT, BACKSPACE, a space or ENTER by x range; a touch below the bottom row yields no key and no change |
| VirtualKeyboard.Upper | ced.py:212-213 | a lower-case ASCII letter becomes the upper-case letter at the same position of the alphabet; every other character is kept |
| VirtualKeyboard.Label | ced.py:174-176 | a key's label differs from its character only for a lower-case letter on the alphanumeric tab with shift on, where it is the upper-case form of the same letter |
| VirtualKeyboard.TouchInKeyHitsKey | ced.py:168-177 | a touch inside the rectangle drawn for a key returns that key's label |
| VirtualKeyboard.KeyHitIsInKey | ced.py:202-214 | a grid touch that returns a key lies inside that key's drawn rectangle |
| VirtualKeyboard.TabStripGap | ced.py:192-199 | the three tabs cover only 318 of the 320 pixels, and a touch-down at x = 318 or 319 selects no tab |
| VirtualKeyboard.Init | ced.py:122-127 | a new keyboard is hidden, on the alphanumeric tab, with shift off |
| VirtualKeyboard.InitIgnoresTouches | ced.py:122-190 | a new keyboard is hidden, so every touch yields no key and no change |
| VirtualKeyboard.ShiftedFirstLetter | ced.py:205-214 | with shift on the alphanumeric tab, the first key of the letter row types `Q` |
| Editor.Init | ced.py:230-238 | a new session satisfies the cursor invariant |
| Editor.LoadFile | ced.py:249-262 | a successful load replaces the lines by the normalised, split text with the cursor at the top; a failed load keeps the document; both set a 50-frame message |
| Editor.SaveFile | ced.py:264-271 | saving changes only the message and its timer |
| Editor.LinesVisible | ced.py:388-390 | at least one text line is visible whether or not the keyboard is shown |
| Editor.ApplyKey | ced.py:327-330 | a one-character key types it, BACKSPACE deletes, ENTER splits the line, and TAB, SHIFT or no key leave the document alone |
| Editor.Touch | ced.py:323-347 | touches go to the keyboard first; a touch-down on the header toggles the keyboard right of x = 260, loads left of 60, saves left of 120 and otherwise does nothing; a drag in the header band changes nothing; in the text area a touch on an existing line puts the cursor at the tapped column; drags never edit; only load and save touch the message and its timer; the cursor stays valid |
| Editor.Press | ced.py:349-371 | keypad presses: the arrow keys make the line-buffer moves, EXE, DEL and the dot key edit, EXP flips only the keyboard's visibility, other keys change nothing; no key touches the message or its timer; the cursor stays valid |
| Editor.ToggleKeyboard | ced.py:334-335 | toggling flips the keyboard's visibility and keeps everything else |
| Editor.ToggleTwice | ced.py:334-335 | toggling twice restores the session |
| Editor.ProcessEvent | ced.py:322-374 | every event keeps the cursor invariant and leaves the scroll offset alone; drags never edit; no event changes nothing |
| Editor.AutoScroll | ced.py:392-394 | after the update the cursor row is inside the window, an in-window cursor leaves the offset unchanged, and the offset moves no further than needed |
| Editor.Scroll | ced.py:387-394 | redrawing changes only the scroll offset (every other field, the message and its timer included, is kept), and the new offset keeps the cursor row visible and never goes negative |
| Editor.Run | ced.py:452-458 | after any sequence of events and redraws the cursor invariant holds and the cursor row is visible |
| Editor.SaveThenLoad | ced.py:249-267 | loading what was saved restores the lines, with the cursor at the top, when no line holds a newline and no line but the last ends in `\r` |
| Editor.SaveThenLoadLossy | ced.py:249-267 | saving `["a\r", "b"]` and loading it back gives `["a", "b"]`: a carriage return at the end of a non-final line is lost |
| Editor.LoadedLinesHaveNoNewline | ced.py:254 | a loaded document never holds a newline inside a line |
| Editor.LoadMissingFileAtStart | ced.py:230-262 | a missing file at start-up leaves the single empty line and shows a non-empty message with a positive timer |

## Left out

- Drawing (`draw_key`, `VirtualKeyboard.draw`, and the rendering calls of `Editor.draw`): these are output-only calls into the display library, which is not part of this model. The key rectangles they lay out appear only as the `InKey` predicate.
- File access in `load_file` and `save_file` (`open`, `read`, `write`, exception handling): the result of reading is a parameter (`Env.fileContent`, `None` for any exception), and so is whether writing succeeds (`Env.writeOk`). The written text is `SavedText`.
- The message timer's per-frame countdown in `Editor.draw`: it affects only what is displayed.
- `main` and its event polling: events are the `Event` datatype. The exit key, which ends the loop, is not modelled. `Run` composes dispatch and redraw over a sequence of events.
- Run: one `Env` serves the whole run, so a load after a save in the same run reads the file content fixed at the start, not the text just saved. The file system between events is not modelled.
- `dsize` glyph metrics: an arbitrary function `width: string -> int`.
- Python's negative list indices: `ProcessEvent` requires the cursor invariant, which every operation keeps. Without it the arrow keys could index `lines[-1]`.
- VirtualKeyboard.Upper: upper-cases only ASCII `a`–`z`, unlike Python's `str.upper`, because all layout characters are ASCII.
- Editor.LoadFile: a file that cannot be read leaves the document as it was. The model does not tell open failures from decoding failures.
