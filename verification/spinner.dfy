/** The sequential core of the spinner package: the Spinner object with its
    frame set, run state and colour, one render tick of the background loop
    (without its sleep), the erase routine, colour validation and the
    number-sequence helper.

    The background loop itself, its timing and all locking are not modelled;
    starting a loop is recorded in the ghost counter `launched`, and a stop
    request sent on the stop channel in the counter `stopSignals`. */
module Spinner {
  import opened Terminal
  import opened Decimal

  datatype Option<T> = None | Some(value: T)

  /** A Go time.Duration: a signed 64-bit count of nanoseconds. */
  newtype Duration = d: int | -0x8000_0000_0000_0000 <= d < 0x8000_0000_0000_0000

  /** The spinner status. */
  datatype RunState = Stopped | Running

  /** The foreground colours a spinner can be painted in; each stands for
      the formatter the colour library builds for it. */
  datatype Foreground = FgRed | FgGreen | FgYellow | FgBlue | FgMagenta | FgCyan | FgWhite

  datatype ColorError = InvalidColor

  // ---------------------------------------------------------------------
  // Colour names

  /** The only colour names the spinner accepts, in the order it lists them. */
  const ValidColors: seq<string> := ["red", "green", "yellow", "blue", "magenta", "cyan", "white"]

  function Name(k: Foreground): string
  {
    match k
    case FgRed => "red"
    case FgGreen => "green"
    case FgYellow => "yellow"
    case FgBlue => "blue"
    case FgMagenta => "magenta"
    case FgCyan => "cyan"
    case FgWhite => "white"
  }

  /** Linear search for `c` in `names`, stopping at the first match. */
  function Listed(c: string, names: seq<string>): (r: bool)
    ensures r <==> c in names
    decreases |names|
  {
    if names == [] then false
    else if c == names[0] then true
    else Listed(c, names[1..])
  }

  /** Whether `c` is an allowed colour name. */
  function ValidColor(c: string): (r: bool)
    ensures r <==> c in ValidColors
  {
    Listed(c, ValidColors)
  }

  /** The switch of Color: the formatter for each name it knows, or None
      where Color has its "invalid color" default branch. */
  function SelectColor(c: string): (r: Option<Foreground>)
    ensures r.Some? ==> Name(r.value) == c
  {
    if c == "red" then Some(FgRed)
    else if c == "yellow" then Some(FgYellow)
    else if c == "green" then Some(FgGreen)
    else if c == "magenta" then Some(FgMagenta)
    else if c == "blue" then Some(FgBlue)
    else if c == "cyan" then Some(FgCyan)
    else if c == "white" then Some(FgWhite)
    else None
  }

  /** The allow-list and the switch name the same colours: a name is valid
      exactly when the switch has a case for it, so the switch's default
      branch is never reached from Color. */
  lemma ValidColorMatchesSwitch(c: string)
    ensures ValidColor(c) <==> SelectColor(c).Some?
  {
  }

  /** Every colour's own name is valid and selects that colour. */
  lemma SelectColorByName(k: Foreground)
    ensures ValidColor(Name(k))
    ensures SelectColor(Name(k)) == Some(k)
  {
  }

  /** What a terminal colour formatter produces: the SGR sequence that sets
      the foreground colour, the text, and the SGR sequence that resets all
      attributes.  Used only to exhibit the erase behaviour below. */
  function AnsiPaint(k: Foreground, s: string): string
  {
    SgrOpen(k) + s + SgrReset()
  }

  function SgrOpen(k: Foreground): string
  {
    var code := match k
      case FgRed => "31"
      case FgGreen => "32"
      case FgYellow => "33"
      case FgBlue => "34"
      case FgMagenta => "35"
      case FgCyan => "36"
      case FgWhite => "37";
    [ESC, '['] + code + "m"
  }

  function SgrReset(): string
  {
    [ESC] + "[0m"
  }

  // ---------------------------------------------------------------------
  // Frame sets

  /** `s` in reverse order. */
  function Reversed<T>(s: seq<T>): (r: seq<T>)
    ensures |r| == |s|
  {
    if s == [] then [] else [s[|s| - 1]] + Reversed(s[..|s| - 1])
  }

  /** Element `k` of the reversal is element `n-1-k` of the original. */
  lemma {:induction false} ReversedAt<T>(s: seq<T>, k: nat)
    requires k < |s|
    ensures Reversed(s)[k] == s[|s| - 1 - k]
    decreases |s|
  {
    if k > 0 {
      ReversedAt(s[..|s| - 1], k - 1);
    }
  }

  /** Reversing twice restores the original order. */
  lemma ReversedTwice<T>(s: seq<T>)
    ensures Reversed(Reversed(s)) == s
  {
    forall k | 0 <= k < |s|
      ensures Reversed(Reversed(s))[k] == s[k]
    {
      ReversedAt(Reversed(s), k);
      ReversedAt(s, |s| - 1 - k);
    }
  }

  /** Frame sets of zero or one frame are their own reversal. */
  lemma ReversedShort<T>(s: seq<T>)
    requires |s| <= 1
    ensures Reversed(s) == s
  {
  }

  // ---------------------------------------------------------------------
  // Output

  /** erase: write one backspace for each rune of `a` to the writer whose
      contents so far are `w`.  A Dafny char is one Unicode scalar value,
      so the rune count of `a` is |a|. */
  method Erase(w: string, a: string) returns (w': string)
    ensures w' == w + Backspaces(|a|)
  {
    var n := |a|;
    w' := w;
    var i := 0;
    while i < n
      invariant 0 <= i <= n
      invariant w' == w + Backspaces(i)
    {
      BackspacesSnoc(i);
      w' := w' + [BS];
      i := i + 1;
    }
  }

  /** The erase the frame needs: one backspace per column the frame
      occupies on screen, so that colour control sequences are not
      counted. */
  method EraseVisible(w: string, a: string) returns (w': string)
    ensures w' == w + Backspaces(VisibleWidth(a))
  {
    var n := VisibleWidth(a);
    w' := w;
    var i := 0;
    while i < n
      invariant 0 <= i <= n
      invariant w' == w + Backspaces(i)
    {
      BackspacesSnoc(i);
      w' := w' + [BS];
      i := i + 1;
    }
  }

  /** Erasing a plain frame (no control characters) by its rune count puts
      the cursor back where the frame began. */
  lemma PlainFrameBackspacesRestoreColumn(c: nat, out: string)
    requires forall k | 0 <= k < |out| :: out[k] != BS && out[k] != ESC
    ensures Run(Cursor(c, Text), out + Backspaces(|out|)) == Cursor(c, Text)
  {
    PlainVisibleWidth(out);
    VisibleBackspacesRestoreColumn(c, out);
  }

  lemma {:induction false} SgrInvisible(c: nat, k: Foreground)
    ensures Run(Cursor(c, Text), SgrOpen(k)) == Cursor(c, Text)
    ensures Run(Cursor(c, Text), SgrReset()) == Cursor(c, Text)
    ensures |SgrOpen(k)| == 5 && |SgrReset()| == 4
  {
    var o := SgrOpen(k);
    assert '0' <= o[2] <= '9' && '0' <= o[3] <= '9' && o[4] == 'm';
    assert Run(Cursor(c, Control), o[4..]) == Cursor(c, Text);
    assert Run(Cursor(c, Control), o[3..]) == Cursor(c, Text);
    assert Run(Cursor(c, Control), o[2..]) == Cursor(c, Text);
    var z := SgrReset();
    assert Run(Cursor(c, Control), z[3..]) == Cursor(c, Text);
    assert Run(Cursor(c, Control), z[2..]) == Cursor(c, Text);
  }

  /** A frame painted by a terminal colour formatter occupies one column
      per character of the prefix, the frame, the suffix and the trailing
      space, and is 9 characters longer than that. */
  lemma {:induction false} ColoredFrameWidth(c: nat, prefix: string, frame: string, suffix: string, k: Foreground)
    requires forall i | 0 <= i < |prefix| :: prefix[i] != BS && prefix[i] != ESC
    requires forall i | 0 <= i < |frame| :: frame[i] != BS && frame[i] != ESC
    requires forall i | 0 <= i < |suffix| :: suffix[i] != BS && suffix[i] != ESC
    ensures var out := prefix + AnsiPaint(k, frame) + suffix + " ";
      var width := |prefix| + |frame| + |suffix| + 1;
      Run(Cursor(c, Text), out) == Cursor(c + width, Text) && |out| == width + 9
  {
    var tail := suffix + " ";
    var out := prefix + AnsiPaint(k, frame) + suffix + " ";
    assert out == prefix + (SgrOpen(k) + (frame + (SgrReset() + tail)));
    var c1 := c + |prefix|;
    var c2 := c1 + |frame|;
    PlainWidth(c, prefix);
    SgrInvisible(c1, k);
    PlainWidth(c1, frame);
    SgrInvisible(c2, k);
    PlainWidth(c2, tail);
    RunAppend(Cursor(c2, Text), SgrReset(), tail);
    RunAppend(Cursor(c1, Text), frame, SgrReset() + tail);
    RunAppend(Cursor(c1, Text), SgrOpen(k), frame + (SgrReset() + tail));
    RunAppend(Cursor(c, Text), prefix, SgrOpen(k) + (frame + (SgrReset() + tail)));
  }

  /** A frame painted by a terminal colour formatter, written at column `c`
      and then erased by its rune count as erase does, leaves the cursor 9
      columns left of where the frame began (or at column 0): the 9
      characters of the two control sequences are counted although they
      occupy no column.  Each tick thus moves the spinner further left over
      whatever was printed before it on the line. */
  lemma ColoredFrameOvershoots(c: nat, prefix: string, frame: string, suffix: string, k: Foreground)
    requires forall i | 0 <= i < |prefix| :: prefix[i] != BS && prefix[i] != ESC
    requires forall i | 0 <= i < |frame| :: frame[i] != BS && frame[i] != ESC
    requires forall i | 0 <= i < |suffix| :: suffix[i] != BS && suffix[i] != ESC
    ensures var out := prefix + AnsiPaint(k, frame) + suffix + " ";
      Run(Cursor(c, Text), out + Backspaces(|out|)) == Cursor(if c >= 9 then c - 9 else 0, Text)
  {
    var out := prefix + AnsiPaint(k, frame) + suffix + " ";
    var width := |prefix| + |frame| + |suffix| + 1;
    ColoredFrameWidth(c, prefix, frame, suffix, k);
    RunAppend(Cursor(c, Text), out, Backspaces(|out|));
    RunBackspaces(c + width, |out|);
  }

  /** The same painted frame erased by its visible width, as EraseVisible
      does, leaves the cursor exactly where the frame began. */
  lemma ColoredFrameRestored(c: nat, prefix: string, frame: string, suffix: string, k: Foreground)
    requires forall i | 0 <= i < |prefix| :: prefix[i] != BS && prefix[i] != ESC
    requires forall i | 0 <= i < |frame| :: frame[i] != BS && frame[i] != ESC
    requires forall i | 0 <= i < |suffix| :: suffix[i] != BS && suffix[i] != ESC
    ensures var out := prefix + AnsiPaint(k, frame) + suffix + " ";
      Run(Cursor(c, Text), out + Backspaces(VisibleWidth(out))) == Cursor(c, Text)
  {
    var out := prefix + AnsiPaint(k, frame) + suffix + " ";
    var width := |prefix| + |frame| + |suffix| + 1;
    ColoredFrameWidth(0, prefix, frame, suffix, k);
    ColoredFrameWidth(c, prefix, frame, suffix, k);
    assert VisibleWidth(out) == width;
    RunAppend(Cursor(c, Text), out, Backspaces(width));
    RunBackspaces(c + width, width);
  }

  // ---------------------------------------------------------------------
  // Number sequences

  /** The list "0", "1", ..., of `length` decimal numbers (none when
      `length` is not positive). */
  method GenerateNumberSequence(length: int) returns (numSeq: seq<string>)
    ensures |numSeq| == if length > 0 then length else 0
    ensures forall k | 0 <= k < |numSeq| :: numSeq[k] == Itoa(k) && Atoi(numSeq[k]) == k
    ensures forall a, b | 0 <= a < b < |numSeq| :: numSeq[a] != numSeq[b]
  {
    numSeq := [];
    var i := 0;
    while i < length
      invariant 0 <= i <= (if length > 0 then length else 0)
      invariant |numSeq| == i
      invariant forall k | 0 <= k < i :: numSeq[k] == Itoa(k)
    {
      numSeq := numSeq + [Itoa(i)];
      i := i + 1;
    }
    forall k | 0 <= k < |numSeq|
      ensures Atoi(numSeq[k]) == k
    {
      AtoiItoa(k);
    }
    forall a, b | 0 <= a < b < |numSeq|
      ensures numSeq[a] != numSeq[b]
    {
      ItoaInjective(a, b);
    }
  }

  // ---------------------------------------------------------------------
  // The spinner

  class Spinner {
    var chars: array<string>    // the frames, in display order
    var Delay: Duration         // time between frames
    var Prefix: string          // written before the frame
    var Suffix: string          // written after the frame
    var stopSignals: nat        // stop requests sent on the stop channel
    var st: RunState
    var w: string               // everything written to the output so far
    var color: Foreground       // the installed formatter
    ghost var launched: nat     // render loops started

    /** Every render loop started has been sent a stop request, except the
        one loop that is live while the spinner is running. */
    ghost predicate Valid()
      reads this
    {
      launched == stopSignals + (if st == Running then 1 else 0)
    }

    /** New: a stopped, white spinner holding its own copy of the frames. */
    constructor New(c: array<string>, t: Duration)
      ensures Valid()
      ensures fresh(chars) && chars[..] == c[..]
      ensures Delay == t && st == Stopped && color == FgWhite
      ensures Prefix == "" && Suffix == "" && w == []
      ensures stopSignals == 0 && launched == 0
    {
      Delay := t;
      stopSignals := 0;
      color := FgWhite;
      w := [];
      Prefix, Suffix := "", "";
      st := Stopped;
      launched := 0;
      chars := new string[0];
      new;
      UpdateCharSet(c);
    }

    /** Start: launch a render loop unless one is already running. */
    method Start()
      requires Valid()
      modifies this`st, this`launched
      ensures Valid() && st == Running
      ensures launched == old(launched) + (if old(st) == Running then 0 else 1)
    {
      if st == Running {
        return;
      }
      st := Running;
      launched := launched + 1;
    }

    /** Stop: when running, send one stop request and become stopped. */
    method Stop()
      requires Valid()
      modifies this`st, this`stopSignals
      ensures Valid() && st == Stopped
      ensures stopSignals == old(stopSignals) + (if old(st) == Running then 1 else 0)
    {
      if st == Running {
        stopSignals := stopSignals + 1;
        st := Stopped;
      }
    }

    /** Restart: Stop then Start.  It always ends running, with exactly one
        new render loop. */
    method Restart()
      requires Valid()
      modifies this`st, this`stopSignals, this`launched
      ensures Valid() && st == Running
      ensures stopSignals == old(stopSignals) + (if old(st) == Running then 1 else 0)
      ensures launched == old(launched) + 1
    {
      Stop();
      Start();
    }

    /** Reverse the frames in place, swapping from both ends. */
    method Reverse()
      requires Valid()
      modifies chars
      ensures Valid()
      ensures chars[..] == Reversed(old(chars[..]))
    {
      ghost var n := chars.Length;
      var i, j := 0, chars.Length - 1;
      while i < j
        invariant 0 <= i && j == n - 1 - i && i <= j + 1
        invariant forall k | 0 <= k < i :: chars[k] == old(chars[n - 1 - k])
        invariant forall k | j < k < n :: chars[k] == old(chars[n - 1 - k])
        invariant forall k | i <= k <= j :: chars[k] == old(chars[k])
      {
        chars[i], chars[j] := chars[j], chars[i];
        i, j := i + 1, j - 1;
      }
      forall k | 0 <= k < n
        ensures chars[..][k] == Reversed(old(chars[..]))[k]
      {
        ReversedAt(old(chars[..]), k);
      }
    }

    /** UpdateSpeed: set the delay between frames. */
    method UpdateSpeed(delay: Duration)
      requires Valid()
      modifies this`Delay
      ensures Valid()
      ensures Delay == delay
    {
      Delay := delay;
    }

    /** UpdateCharSet: replace the frames by a fresh copy of `cs`, which may
        be empty. */
    method UpdateCharSet(cs: array<string>)
      requires Valid()
      modifies this`chars
      ensures Valid()
      ensures fresh(chars) && chars[..] == cs[..]
    {
      var n := new string[cs.Length];
      forall k | 0 <= k < cs.Length {
        n[k] := cs[k];
      }
      chars := n;
    }

    /** Color, as written: for an allowed name install its formatter and
        restart (even a stopped spinner ends up running); for any other
        name change nothing.  It reports no error in either case. */
    method Color(c: string) returns (err: Option<ColorError>)
      requires Valid()
      modifies this`color, this`st, this`stopSignals, this`launched
      ensures Valid()
      ensures err == None
      ensures ValidColor(c) ==>
        Name(color) == c && st == Running && launched == old(launched) + 1 &&
        stopSignals == old(stopSignals) + (if old(st) == Running then 1 else 0)
      ensures !ValidColor(c) ==>
        color == old(color) && st == old(st) && launched == old(launched) &&
        stopSignals == old(stopSignals)
    {
      if ValidColor(c) {
        match SelectColor(c)
        case Some(k) =>
          color := k;
          Restart();
        case None =>
          assert false;
      }
      return None;
    }

    /** Color as its error branch and the test suite intend it: an invalid
        name is reported as InvalidColor and changes nothing. */
    method ColorChecked(c: string) returns (err: Option<ColorError>)
      requires Valid()
      modifies this`color, this`st, this`stopSignals, this`launched
      ensures Valid()
      ensures err == None <==> ValidColor(c)
      ensures err != None ==> err == Some(InvalidColor)
      ensures ValidColor(c) ==>
        Name(color) == c && st == Running && launched == old(launched) + 1 &&
        stopSignals == old(stopSignals) + (if old(st) == Running then 1 else 0)
      ensures !ValidColor(c) ==>
        color == old(color) && st == old(st) && launched == old(launched) &&
        stopSignals == old(stopSignals)
    {
      match SelectColor(c)
      case Some(k) =>
        color := k;
        Restart();
        return None;
      case None =>
        return Some(InvalidColor);
    }

    /** One tick of the render loop, without its sleep: write frame `i`
        between the prefix and suffix, painted by the installed colour and
        followed by a space, then erase it.  `paint` is the colour
        library's formatter for each colour. */
    method RenderFrame(i: nat, paint: (Foreground, string) -> string) returns (out: string)
      requires Valid()
      requires i < chars.Length
      modifies this`w
      ensures Valid()
      ensures out == Prefix + paint(color, chars[i]) + Suffix + " "
      ensures w == old(w) + out + Backspaces(|out|)
    {
      out := Prefix + paint(color, chars[i]) + Suffix + " ";
      w := w + out;
      w := Erase(w, out);
    }
  }

  // ---------------------------------------------------------------------
  // Uses of the spinner

  /** The test's sequence Reverse, Restart, Reverse, Restart: the frames are
      back in their original order and the spinner is running. */
  method ReverseRestartTwice(s: Spinner)
    requires s.Valid()
    modifies s, s.chars
    ensures s.Valid() && s.st == Running
    ensures s.chars == old(s.chars) && s.chars[..] == old(s.chars[..])
    ensures s.Delay == old(s.Delay) && s.color == old(s.color)
  {
    s.Reverse();
    s.Restart();
    s.Reverse();
    s.Restart();
    ReversedTwice(old(s.chars[..]));
  }

  /** After UpdateCharSet, the caller's array and the spinner's frames are
      independent: overwriting the caller's first element does not reach
      the spinner, and reversing the spinner does not reach the caller. */
  method CharSetIsolation(s: Spinner, cs: array<string>, x: string)
    requires s.Valid()
    requires cs.Length > 0
    modifies s, cs
    ensures s.Valid()
    ensures s.chars[..] == Reversed(old(cs[..]))
    ensures cs[..] == old(cs[..])[0 := x]
  {
    s.UpdateCharSet(cs);
    cs[0] := x;
    s.Reverse();
  }

  /** The test's colour check (a fresh spinner, an invalid then a valid
      name), run against Color as written: no error either time, although
      the test expects one for "bluez". */
  method ColorErrorAsWritten(frames: array<string>) returns (invalid: Option<ColorError>, valid: Option<ColorError>)
    ensures invalid == None && valid == None
  {
    var s := new Spinner.New(frames, 100_000_000);
    invalid := s.Color("bluez");
    valid := s.Color("green");
  }

  /** The same check against ColorChecked: the invalid name is reported. */
  method ColorErrorChecked(frames: array<string>) returns (invalid: Option<ColorError>, valid: Option<ColorError>)
    ensures invalid == Some(InvalidColor) && valid == None
  {
    var s := new Spinner.New(frames, 100_000_000);
    invalid := s.ColorChecked("bluez");
    valid := s.ColorChecked("green");
  }
}
