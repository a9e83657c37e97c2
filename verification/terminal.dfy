/** A single-line terminal, seen only through its cursor column.

    The spinner erases a frame by writing backspaces after it.  Whether that
    puts the cursor back where the frame began depends on which characters
    of the frame actually moved the cursor: printable characters do, the
    characters of an ANSI control sequence (ESC '[' parameters final-byte,
    as emitted by colour formatters) do not.  This module gives the column
    reached after writing a string, so that the erase logic can be judged
    against it. */
module Terminal {

  const BS: char := '\U{8}'    // backspace
  const ESC: char := '\U{1B}'  // escape, the start of a control sequence

  /** Where the terminal is in parsing its input. */
  datatype Mode =
    | Text     // ordinary output
    | Escape   // just read ESC
    | Control  // inside ESC '[' ..., waiting for the final byte

  datatype Cursor = Cursor(col: nat, mode: Mode)

  /** The cursor at the start of a line, not inside a control sequence. */
  const Home: Cursor := Cursor(0, Text)

  /** The effect of one character.  A backspace moves one column left and
      stops at column 0; a printable character moves one column right;
      control sequences move nothing. */
  function Step(t: Cursor, ch: char): Cursor
  {
    match t.mode
    case Text =>
      if ch == BS then Cursor(if t.col == 0 then 0 else t.col - 1, Text)
      else if ch == ESC then Cursor(t.col, Escape)
      else Cursor(t.col + 1, Text)
    case Escape => Cursor(t.col, if ch == '[' then Control else Text)
    case Control => Cursor(t.col, if '@' <= ch <= '~' then Text else Control)
  }

  /** The cursor after writing `s`, starting from `t`. */
  function Run(t: Cursor, s: string): Cursor
    decreases |s|
  {
    if s == [] then t else Run(Step(t, s[0]), s[1..])
  }

  /** The number of columns `s` occupies on screen: the column reached when
      `s` is written from the start of a line. */
  function VisibleWidth(s: string): nat
  {
    Run(Home, s).col
  }

  /** `n` backspace characters. */
  function Backspaces(n: nat): (r: string)
    ensures |r| == n
    ensures forall k | 0 <= k < n :: r[k] == BS
  {
    if n == 0 then [] else [BS] + Backspaces(n - 1)
  }

  /** One more backspace can equally be added at the end. */
  lemma BackspacesSnoc(n: nat)
    ensures Backspaces(n + 1) == Backspaces(n) + [BS]
  {
  }

  /** Writing `a` then `b` is writing `a + b`. */
  lemma {:induction false} RunAppend(t: Cursor, a: string, b: string)
    ensures Run(t, a + b) == Run(Run(t, a), b)
    decreases |a|
  {
    if a != [] {
      assert (a + b)[0] == a[0];
      assert (a + b)[1..] == a[1..] + b;
      RunAppend(Step(t, a[0]), a[1..], b);
    } else {
      assert a + b == b;
    }
  }

  /** Without backspaces, the distance the cursor travels does not depend
      on the column it starts from. */
  lemma {:induction false} RunShift(c: nat, m: Mode, s: string)
    requires BS !in s
    ensures Run(Cursor(c, m), s) == Cursor(c + Run(Cursor(0, m), s).col, Run(Cursor(0, m), s).mode)
    decreases |s|
  {
    if s != [] {
      var t0 := Step(Cursor(0, m), s[0]);
      assert Step(Cursor(c, m), s[0]) == Cursor(c + t0.col, t0.mode);
      assert BS !in s[1..] by { assert forall k | 0 <= k < |s[1..]| :: s[1..][k] == s[k + 1]; }
      RunShift(c + t0.col, t0.mode, s[1..]);
      RunShift(t0.col, t0.mode, s[1..]);
      RunShift(0, t0.mode, s[1..]);
    }
  }

  /** `n` backspaces move the cursor `n` columns left, but not past column 0. */
  lemma {:induction false} RunBackspaces(c: nat, n: nat)
    ensures Run(Cursor(c, Text), Backspaces(n)) == Cursor(if n <= c then c - n else 0, Text)
  {
    if n > 0 {
      var b := Backspaces(n);
      assert b[0] == BS && b[1..] == Backspaces(n - 1);
      RunBackspaces(if c == 0 then 0 else c - 1, n - 1);
    }
  }

  /** A string of printable characters only (no escape, no backspace)
      occupies one column per character. */
  lemma {:induction false} PlainWidth(c: nat, s: string)
    requires forall k | 0 <= k < |s| :: s[k] != BS && s[k] != ESC
    ensures Run(Cursor(c, Text), s) == Cursor(c + |s|, Text)
    decreases |s|
  {
    if s != [] {
      PlainWidth(c + 1, s[1..]);
    }
  }

  /** Writing `out` and then as many backspaces as its visible width returns
      the cursor to the column it started from, wherever that was, provided
      `out` holds no backspace and closes every control sequence it opens. */
  lemma {:induction false} VisibleBackspacesRestoreColumn(c: nat, out: string)
    requires BS !in out
    requires Run(Home, out).mode == Text
    ensures Run(Cursor(c, Text), out + Backspaces(VisibleWidth(out))) == Cursor(c, Text)
  {
    RunAppend(Cursor(c, Text), out, Backspaces(VisibleWidth(out)));
    RunShift(c, Text, out);
    RunBackspaces(c + VisibleWidth(out), VisibleWidth(out));
  }

  /** For printable text the visible width is the length. */
  lemma PlainVisibleWidth(s: string)
    requires forall k | 0 <= k < |s| :: s[k] != BS && s[k] != ESC
    ensures VisibleWidth(s) == |s|
    ensures Run(Home, s).mode == Text
  {
    PlainWidth(0, s);
  }
}
