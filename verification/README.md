# Spinner — a Dafny model of the sequential core of a terminal spinner

The Go package `spinner` draws an animated glyph in a terminal. A `Spinner`
holds a frame set (`chars`), a delay, a prefix and a suffix, a colour
formatter, an output writer and a run state (`stopped` or `running`).
`Start` launches a background loop. On every tick the loop writes
`Prefix + color(frame) + Suffix + " "`, sleeps, and then erases what it wrote
with backspaces. `Stop` sends a request on the stop channel.

This project models that object and its operations sequentially:

- `terminal.dfy`, module `Terminal`: a one-line terminal seen through its
  cursor column. Printable characters advance the cursor. Backspace moves it
  back, but not past column 0. ANSI control sequences (`ESC [ … final`) do
  not move it. This is the yardstick for what erasing a frame achieves.
- `decimal.dfy`, module `Decimal`: the decimal rendering `strconv.Itoa`
  gives non-negative numbers, and its inverse.
- `spinner.dfy`, module `Spinner`: the `Spinner` class and the package
  functions `validColor`, `erase` and `GenerateNumberSequence`.
  - The frames are an `array<string>`, reversed in place by `Reverse`.
  - The writer is the field `w`, the string of everything written so far.
  - The colour formatter is a tag of type `Foreground`. `RenderFrame` takes
    the formatter itself as a parameter `paint`.
  - The stop channel is the counter `stopSignals` of stop requests sent.
  - Launching a render loop is recorded in the ghost counter `launched`.
  - `Valid()` states the run-state invariant: every loop ever launched has
    been sent a stop request, except the single loop that is live while the
    spinner is running.

The code is more permissive than a caller might expect, and the model
keeps that:

- `New` accepts an empty frame set and any delay.
- `UpdateCharSet` accepts an empty frame set.
- `UpdateSpeed` accepts any delay.
- `Start` on a running spinner is a silent no-op.
- `Color` restarts the spinner for every valid name, so a stopped spinner
  ends up running. For an invalid name it returns no error (see Findings).

## Model

| member | source | states |
|---|---|---|
| `Spinner.Listed` | spinner.go:94-101 | the search over the colour list returns true exactly when the name occurs in the list |
| `Spinner.ValidColor` | spinner.go:90-101 | a name is valid exactly when it is one of red, green, yellow, blue, magenta, cyan, white |
| `Spinner.SelectColor` | spinner.go:153-177 | every case of Color's switch installs the formatter of the colour that case names |
| `Spinner.ValidColorMatchesSwitch` | spinner.go:151-177 | a name passes validColor exactly when the switch has a case for it, so the "invalid color" default branch is unreachable |
| `Spinner.SelectColorByName` | spinner.go:151-177 | every colour's own name is valid and selects that colour |
| `Spinner.Reversed` | spinner.go:199-205 | the reversal of a frame list has the same length as the list |
| `Spinner.ReversedAt` | spinner.go:199-205 | position k of the reversed frames holds the original frame n-1-k |
| `Spinner.ReversedTwice` | spinner.go:199-205 | reversing twice restores the original frame order |
| `Spinner.ReversedShort` | spinner.go:202 | frame sets of zero or one frame are unchanged by reversal, because the loop does not run |
| `Spinner.Erase` | spinner.go:143-148 | erase appends to the writer exactly one backspace per rune of the string and nothing else |
| `Spinner.EraseVisible` | spinner.go:143-148 | the corrected erase appends one backspace per column the string occupies on screen |
| `Spinner.PlainFrameBackspacesRestoreColumn` | spinner.go:132-135 | for a frame with no control characters, writing it and erasing it by rune count returns the cursor to where the frame began |
| `Spinner.ColoredFrameOvershoots` | spinner.go:132-148 | for a frame painted by an ANSI colour formatter, whose prefix, frame and suffix hold no backspace or escape, erasing by rune count leaves the cursor 9 columns left of where the frame began (clamped at column 0) |
| `Spinner.ColoredFrameRestored` | spinner.go:143-148 | the same painted frame, under the same condition on prefix, frame and suffix, erased by its visible width, as the corrected erase does, leaves the cursor exactly where the frame began |
| `Terminal.VisibleBackspacesRestoreColumn` | spinner.go:143-148 | for a string with no backspace that closes every control sequence it opens, writing it and then as many backspaces as its visible width returns the cursor to its starting column, from any column |
| `Spinner.GenerateNumberSequence` | spinner.go:225-231 | returns max(length, 0) strings; element k is the decimal text of k, reads back as k, and all elements differ |
| `Decimal.Itoa` | spinner.go:228 | the decimal text of n is non-empty and all digits; it starts with '0' only for 0 and has one digit exactly when n < 10 |
| `Decimal.AtoiItoa` | spinner.go:228 | reading the decimal text of n back gives n |
| `Decimal.ItoaInjective` | spinner.go:225-231 | two numbers have the same decimal text exactly when they are equal |
| `Spinner.Spinner.New` | spinner.go:104-113 | a new spinner is stopped and white, with the given delay, empty prefix and suffix, and a freshly allocated copy of the frames |
| `Spinner.Spinner.Start` | spinner.go:116-122 | a stopped spinner becomes running and launches exactly one loop; a running spinner is unchanged; the run-state invariant is kept |
| `Spinner.Spinner.Stop` | spinner.go:183-190 | a running spinner sends exactly one stop request and becomes stopped; a stopped spinner is unchanged |
| `Spinner.Spinner.Restart` | spinner.go:193-196 | the spinner always ends running with exactly one new loop; one stop request is sent if it was running |
| `Spinner.Spinner.Reverse` | spinner.go:199-205 | the frame array becomes the reversal of its old contents; no other field and no other array changes |
| `Spinner.Spinner.UpdateSpeed` | spinner.go:209 | the delay becomes the given value; nothing else changes |
| `Spinner.Spinner.UpdateCharSet` | spinner.go:213-221 | the frames become a freshly allocated array equal element by element to the argument, which may be empty; nothing else changes |
| `Spinner.Spinner.Color` | spinner.go:151-180 | for a valid name: installs that colour, restarts, ends running; for an invalid name: changes nothing; never returns an error |
| `Spinner.Spinner.ColorChecked` | spinner.go:151-180 | like Color, but returns InvalidColor exactly when the name is not valid |
| `Spinner.Spinner.RenderFrame` | spinner.go:132-135 | one tick writes prefix, painted frame, suffix and a space, followed by exactly as many backspaces as that text has runes, and nothing else |
| `Spinner.ReverseRestartTwice` | spinner_test.go:193-206 | after Reverse, Restart, Reverse, Restart the frame array is the same array in the original order and the spinner is running |
| `Spinner.CharSetIsolation` | spinner.go:213-221 | after UpdateCharSet, writing to the caller's array does not change the spinner's frames, and reversing the spinner does not change the caller's array |
| `Spinner.ColorErrorAsWritten` | spinner_test.go:264-277 | on a new spinner, Color("bluez") and Color("green") both return no error |
| `Spinner.ColorErrorChecked` | spinner_test.go:264-277 | on a new spinner, ColorChecked("bluez") returns InvalidColor and ColorChecked("green") returns no error |

## Left out

- The background goroutine is not modelled: its `for` loops over the frames, the `select` on the stop channel, and `time.Sleep`. Only one tick of it is modelled, as `RenderFrame`. The reason is that it is concurrency and wall-clock timing.
- The package-wide `runlock` and the per-spinner `sync.Mutex` are not modelled, because they are concurrency. The model is sequential.
- The capacity of the stop channel (1) is not modelled. In Go the send in `Stop` returns at once when the buffer is empty, but blocks while an earlier request is still buffered. That happens on a second `Restart` within one frame, while the old loop sleeps. It also happens on a second `Stop` when the frame set is empty. That is a defect in the source (spinner.go:126-138): with no frames the loop spins in its outer `for` without reaching the `select`, never reads the channel, and holds the package-wide `runlock` forever, so no other spinner in the process can render. It is not listed under Findings because the loop is not part of this model. The counter never blocks. `Valid()` counts a loop as ended once its stop request is sent, even when the loop never reads it.
- The colour library is foreign code. Each formatter is the tag `Foreground`. `RenderFrame` receives the formatting function as a parameter. `AnsiPaint` is what such a formatter emits on a terminal and is used only for the erase finding.
- The output is modelled as a string, not as `os.Stdout` or an `io.Writer`, because those are I/O. Write errors are not modelled.
- The `CharSets` table is not modelled. It is static data.
- Names that only the tests use (`Active`, `Enable`, `Disable`, `Enabled`, `PreUpdate`, `PostUpdate`, `Writer`, `WithWriter`, `errInvalidColor`, `computeNumberOfLinesNeededToPrintStringInternal`) have no definition in `spinner.go` and are not modelled.
- The example programs are not modelled. They are callers only.
- `Spinner.Erase`: the rune count is the length of a Dafny string (one Unicode scalar value per char). Go counts each byte of invalid UTF-8 as one rune. Such strings cannot be written in this model.
- `Spinner.GenerateNumberSequence`: `length` is an unbounded integer, not Go's 64-bit `int`. The loop stays below `length`, so it cannot overflow either way.
- `Terminal`: the terminal model covers a single line. Newlines and carriage returns are treated as printable characters, and control sequences other than `ESC [ … final-byte` are not modelled. Every character other than backspace and escape is taken to be exactly one column wide: wide characters (CJK ideographs, emoji) and zero-width characters (combining marks) are not modelled. `Spinner.PlainFrameBackspacesRestoreColumn` rests on this; a frame of wide glyphs erased by rune count is under-erased on a real terminal.

## Findings

| source | as written | input that shows it | evidently intended | confidence | as-written member | corrected member |
|---|---|---|---|---|---|---|
| spinner.go:143-148 | `erase` writes one backspace per rune of the frame text, and that count includes the 9 characters of the colour control sequences `ESC[37m` and `ESC[0m` | the default white spinner with frame `"|"`, drawn on a terminal after the 41 columns of `"This is on the same line as the spinner: "` (spinner_test.go:257): each tick leaves the cursor 9 columns further left, so the spinner eats into that text | erase only the columns the frame occupies on screen, so that the cursor returns to where the frame began | medium; not executed; depends on the colour library emitting ANSI codes, which it does on a terminal | `Spinner.ColoredFrameOvershoots` | `Spinner.EraseVisible` |
| spinner.go:151-180 | `Color` returns nil for an invalid name; its `default: return errors.New("invalid color")` branch is unreachable behind the `validColor` guard | `Color("bluez")` returns nil, while spinner_test.go:270 expects an error | return an "invalid color" error for a name outside the allow-list, and change nothing | medium; not executed | `Spinner.ColorErrorAsWritten` | `Spinner.Spinner.ColorChecked` |
