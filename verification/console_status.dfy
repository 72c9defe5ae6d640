/** The one-line console display of the Windows player
    (client/windows-native/winplay/src/console_status.cpp): status messages,
    and a progress line redrawn in place with a carriage return. */
module Console {

  // ------------------------------------------------------------------ decimal digits

  function DigitChar(d: int): char
    requires 0 <= d < 10
  {
    ('0' as int + d) as char
  }

  predicate IsDigit(c: char) {
    '0' <= c <= '9'
  }

  /** The decimal digits of `n`, without leading zeros, as `%d` prints them. */
  function Digits(n: nat): (s: string)
    ensures |s| >= 1
    decreases n
  {
    if n < 10 then [DigitChar(n)] else Digits(n / 10) + [DigitChar(n % 10)]
  }

  /** The number a string of decimal digits denotes. */
  function Value(s: string): int
    decreases |s|
  {
    if s == [] then 0 else Value(s[..|s| - 1]) * 10 + (s[|s| - 1] as int - '0' as int)
  }

  /** Reading the digits back gives the number; no other character is printed. */
  lemma {:induction false} DigitsValue(n: nat)
    ensures Value(Digits(n)) == n
    ensures forall i :: 0 <= i < |Digits(n)| ==> IsDigit(Digits(n)[i])
    ensures n < 10 <==> |Digits(n)| == 1
    decreases n
  {
    if n >= 10 {
      DigitsValue(n / 10);
      var s := Digits(n);
      assert s[..|s| - 1] == Digits(n / 10);
    }
  }

  /** `%02d` of a non-negative number: at least two digits, zero-padded. */
  function Pad2(n: nat): string {
    if n < 10 then ['0', DigitChar(n)] else Digits(n)
  }

  lemma Pad2Value(n: nat)
    ensures Value(Pad2(n)) == n
    ensures |Pad2(n)| >= 2
    ensures n < 100 ==> |Pad2(n)| == 2
    ensures forall i :: 0 <= i < |Pad2(n)| ==> IsDigit(Pad2(n)[i])
  {
    if n < 10 {
      var s := Pad2(n);
      assert s[..1] == ['0'];
      assert s[..1][..0] == [];
      assert Value(s[..1]) == 0;
    } else {
      DigitsValue(n);
      if n < 100 {
        DigitsValue(n / 10);
      }
    }
  }

  // ------------------------------------------------------------------ format_time

  /** A C++ `static_cast<int>` of a non-negative real. */
  function WholePart(r: real): (n: nat)
    requires r >= 0.0
    ensures n as real <= r < n as real + 1.0
  {
    r.Floor
  }

  /** `mm:ss` for a playback position: negative positions show as zero, the
      seconds are truncated, the minutes are not bounded by an hour. */
  function FormatTime(seconds: real): string {
    var total := WholePart(if seconds < 0.0 then 0.0 else seconds);
    Pad2(total / 60) + ":" + Pad2(total % 60)
  }

  /** What `FormatTime` shows: digits, a colon, two digits of seconds below 60,
      and together the whole seconds elapsed, negative times as zero. */
  lemma FormatTimeShows(seconds: real)
    ensures var r := FormatTime(seconds);
      |r| >= 5 && r[|r| - 3] == ':'
      && (forall i :: 0 <= i < |r| && i != |r| - 3 ==> IsDigit(r[i]))
      && Value(r[|r| - 2..]) < 60
      && (Value(r[..|r| - 3]) * 60 + Value(r[|r| - 2..])) as real <= (if seconds < 0.0 then 0.0 else seconds)
      && (if seconds < 0.0 then 0.0 else seconds) < (Value(r[..|r| - 3]) * 60 + Value(r[|r| - 2..]) + 1) as real
  {
    var total := WholePart(if seconds < 0.0 then 0.0 else seconds);
    var m, s := Pad2(total / 60), Pad2(total % 60);
    Pad2Value(total / 60);
    Pad2Value(total % 60);
    var r := FormatTime(seconds);
    assert r == m + ":" + s;
    assert r[..|r| - 3] == m;
    assert r[|r| - 2..] == s;
    forall i | 0 <= i < |r| && i != |r| - 3
      ensures IsDigit(r[i])
    {
      if i < |m| {
        assert r[i] == m[i];
      } else {
        assert r[i] == s[i - |m| - 1];
      }
    }
  }

  /** Every time below one second, negative times included, shows "00:00". */
  lemma FormatTimeZero(seconds: real)
    requires seconds < 1.0
    ensures FormatTime(seconds) == "00:00"
  {
    assert WholePart(if seconds < 0.0 then 0.0 else seconds) == 0;
  }

  // ------------------------------------------------------------------ make_progress_bar

  const BarWidth := 30

  function Clamp01(x: real): (r: real)
    ensures 0.0 <= r <= 1.0
    ensures 0.0 <= x <= 1.0 ==> r == x
  {
    if x < 0.0 then 0.0 else if x > 1.0 then 1.0 else x
  }

  /** A bar of `width` cells: the clamped fraction of them, rounded down, drawn
      as '=' and the rest as '-'. */
  function MakeProgressBar(fraction: real, width: nat): string {
    var filled := WholePart(Clamp01(fraction) * width as real);
    seq(width, i requires 0 <= i < width => if i < filled then '=' else '-')
  }

  /** The bar has the requested width, and cell `i` is '=' exactly when the
      clamped fraction covers it entirely; every other cell is '-'. */
  lemma ProgressBarCells(fraction: real, width: nat)
    ensures |MakeProgressBar(fraction, width)| == width
    ensures forall i :: 0 <= i < width ==>
      (MakeProgressBar(fraction, width)[i] == '=' <==> (i + 1) as real <= Clamp01(fraction) * width as real)
    ensures forall i :: 0 <= i < width ==>
      (MakeProgressBar(fraction, width)[i] == '=' || MakeProgressBar(fraction, width)[i] == '-')
  {
  }

  lemma {:induction false} ScaleNonNegative(d: real, n: nat)
    requires d >= 0.0
    ensures d * n as real >= 0.0
  {
    if n > 0 {
      ScaleNonNegative(d, n - 1);
      assert d * n as real == d * (n - 1) as real + d;
    }
  }

  /** A larger fraction fills at least the same cells. */
  lemma {:induction false} ProgressBarMonotone(f1: real, f2: real, width: nat)
    requires f1 <= f2
    ensures forall i :: 0 <= i < width && MakeProgressBar(f1, width)[i] == '=' ==> MakeProgressBar(f2, width)[i] == '='
  {
    ProgressBarCells(f1, width);
    ProgressBarCells(f2, width);
    var c1, c2, w := Clamp01(f1), Clamp01(f2), width as real;
    assert c1 <= c2;
    ScaleNonNegative(c2 - c1, width);
    assert c2 * w - c1 * w == (c2 - c1) * w;
  }

  /** An empty bar at or below zero, a full one at or above one. */
  lemma {:induction false} ProgressBarExtremes(fraction: real, width: nat)
    ensures fraction <= 0.0 ==> MakeProgressBar(fraction, width) == seq(width, _ => '-')
    ensures fraction >= 1.0 ==> MakeProgressBar(fraction, width) == seq(width, _ => '=')
  {
    ProgressBarCells(fraction, width);
  }

  // ------------------------------------------------------------------ the console

  /** What is written to standard output: text, or a real printed with one
      decimal (`%.1f`), whose rounding is not modelled. */
  datatype Piece = Text(text: string) | OneDecimal(value: real)

  predicate EndsLine(p: Piece) {
    p.Text? && |p.text| > 0 && p.text[|p.text| - 1] == '\n'
  }

  /** Nothing written yet, or the last thing written ended a line. */
  predicate AtLineStart(out: seq<Piece>) {
    out == [] || EndsLine(out[|out| - 1])
  }

  /** The progress line: file name, position and duration, and a bar of the
      position's share of the duration (an empty bar for an unknown duration). */
  function PlayingLine(filename: string, position: real, duration: real): string {
    "\r[PLAYING] " + filename + "  " + FormatTime(position) + " / " + FormatTime(duration)
      + "  " + MakeProgressBar(if duration > 0.0 then position / duration else 0.0, BarWidth)
  }

  /** The calls the player makes on its console. */
  datatype Call =
    | Banner(port: nat)
    | Prepare(filename: string, countdown: real)
    | Playing(filename: string, position: real, duration: real)
    | Ended
    | Aborted(reason: string)
    | Shutdown

  /** The newline that ends an unfinished progress line. */
  function Finish(onLine: bool): seq<Piece> {
    if onLine then [Text("\n")] else []
  }

  /** What a call writes, given whether the cursor is on the progress line:
      every message but the banner and the progress line first finishes that line. */
  function Rendered(onLine: bool, c: Call): seq<Piece> {
    match c
    case Banner(port) => [Text("WINPLAY v0.1.0 - listening on port " + Digits(port) + "\n")]
    case Prepare(filename, countdown) =>
      Finish(onLine) + [Text("[PREPARE] " + filename + " (starting in "), OneDecimal(countdown), Text("s)\n")]
    case Playing(filename, position, duration) => [Text(PlayingLine(filename, position, duration))]
    case Ended => Finish(onLine) + [Text("[ENDED]   Playback complete.\n")]
    case Aborted(reason) =>
      Finish(onLine) + [Text("[ABORT]   Playback aborted")]
      + (if reason != [] then [Text(" (" + reason + ")")] else []) + [Text("\n")]
    case Shutdown => Finish(onLine) + [Text("[STOP]    Shutting down.\n")]
  }

  /** Whether the cursor is on the progress line after the call. */
  function OnLineAfter(onLine: bool, c: Call): bool {
    if c.Banner? then onLine else c.Playing?
  }

  /** What a sequence of calls writes. */
  function RenderAll(onLine: bool, cs: seq<Call>): seq<Piece>
    decreases |cs|
  {
    if cs == [] then [] else Rendered(onLine, cs[0]) + RenderAll(OnLineAfter(onLine, cs[0]), cs[1..])
  }

  function OnLineAfterAll(onLine: bool, cs: seq<Call>): bool
    decreases |cs|
  {
    if cs == [] then onLine else OnLineAfterAll(OnLineAfter(onLine, cs[0]), cs[1..])
  }

  lemma {:induction false} RenderAllAppend(onLine: bool, xs: seq<Call>, ys: seq<Call>)
    ensures RenderAll(onLine, xs + ys) == RenderAll(onLine, xs) + RenderAll(OnLineAfterAll(onLine, xs), ys)
    ensures OnLineAfterAll(onLine, xs + ys) == OnLineAfterAll(OnLineAfterAll(onLine, xs), ys)
    decreases |xs|
  {
    if xs != [] {
      assert (xs + ys)[1..] == xs[1..] + ys;
      RenderAllAppend(OnLineAfter(onLine, xs[0]), xs[1..], ys);
    } else {
      assert xs + ys == ys;
    }
  }

  /** The protocol: while the flag tells the truth about the cursor, every call
      but a banner on the progress line keeps it truthful, and every message
      but the progress line and the banner begins at the start of a line. The
      banner does not finish the line: printed on the progress line it would
      leave the flag set on a fresh line, which the player never does, as it
      prints the banner before anything else. */
  lemma {:induction false} RenderedKeepsProtocol(out: seq<Piece>, onLine: bool, c: Call)
    requires onLine <==> !AtLineStart(out)
    requires c.Banner? ==> !onLine
    ensures OnLineAfter(onLine, c) <==> !AtLineStart(out + Rendered(onLine, c))
    ensures !c.Playing? && !c.Banner? ==> AtLineStart(out + Finish(onLine))
  {
    var r := Rendered(onLine, c);
    if c.Playing? {
      var bar := MakeProgressBar(if c.duration > 0.0 then c.position / c.duration else 0.0, BarWidth);
      ProgressBarCells(if c.duration > 0.0 then c.position / c.duration else 0.0, BarWidth);
      var line := PlayingLine(c.filename, c.position, c.duration);
      assert line[|line| - 1] == bar[BarWidth - 1];
      assert (out + r)[|out + r| - 1] == Text(line);
    } else {
      assert |r| > 0 && EndsLine(r[|r| - 1]);
      assert (out + r)[|out + r| - 1] == r[|r| - 1];
    }
  }

  class ConsoleStatus {
    /** Whether the cursor is on the unfinished progress line. */
    var onProgressLine: bool
    /** Everything written to standard output so far. */
    var out: seq<Piece>

    /** The flag is set exactly when the output so far ends in the middle of a line. */
    predicate Valid()
      reads this
    {
      onProgressLine <==> !AtLineStart(out)
    }

    constructor()
      ensures Valid()
      ensures !onProgressLine && out == []
    {
      onProgressLine := false;
      out := [];
    }

    /** Ends an unfinished progress line, so the next message starts a line of its own. */
    method FinishProgressLine()
      modifies this
      ensures out == old(out) + Finish(old(onProgressLine))
      ensures !onProgressLine
      ensures old(Valid()) ==> Valid()
    {
      if onProgressLine {
        out := out + [Text("\n")];
        onProgressLine := false;
      }
    }

    method PrintBanner(port: nat)
      modifies this
      ensures out == old(out) + Rendered(old(onProgressLine), Banner(port))
      ensures onProgressLine == OnLineAfter(old(onProgressLine), Banner(port))
      ensures old(Valid()) && !old(onProgressLine) ==> Valid()
    {
      out := out + [Text("WINPLAY v0.1.0 - listening on port " + Digits(port) + "\n")];
    }

    method PrintPrepare(filename: string, countdown: real)
      modifies this
      ensures out == old(out) + Rendered(old(onProgressLine), Prepare(filename, countdown))
      ensures onProgressLine == OnLineAfter(old(onProgressLine), Prepare(filename, countdown))
      ensures old(Valid()) ==> Valid()
    {
      FinishProgressLine();
      out := out + [Text("[PREPARE] " + filename + " (starting in "), OneDecimal(countdown), Text("s)\n")];
    }

    /** Redraws the progress line over the previous one and leaves the cursor on it. */
    method UpdatePlaying(filename: string, position: real, duration: real)
      modifies this
      ensures out == old(out) + Rendered(old(onProgressLine), Playing(filename, position, duration))
      ensures onProgressLine == OnLineAfter(old(onProgressLine), Playing(filename, position, duration))
      ensures Valid()
    {
      var posStr := FormatTime(position);
      var durStr := FormatTime(duration);
      var bar := MakeProgressBar(if duration > 0.0 then position / duration else 0.0, BarWidth);
      var line := "\r[PLAYING] " + filename + "  " + posStr + " / " + durStr + "  " + bar;
      ProgressBarCells(if duration > 0.0 then position / duration else 0.0, BarWidth);
      assert line[|line| - 1] == bar[BarWidth - 1];
      out := out + [Text(line)];
      onProgressLine := true;
    }

    method PrintEnded()
      modifies this
      ensures out == old(out) + Rendered(old(onProgressLine), Ended)
      ensures onProgressLine == OnLineAfter(old(onProgressLine), Ended)
      ensures old(Valid()) ==> Valid()
    {
      FinishProgressLine();
      out := out + [Text("[ENDED]   Playback complete.\n")];
    }

    /** The reason, when there is one, follows in parentheses. */
    method PrintAborted(reason: string)
      modifies this
      ensures out == old(out) + Rendered(old(onProgressLine), Aborted(reason))
      ensures onProgressLine == OnLineAfter(old(onProgressLine), Aborted(reason))
      ensures old(Valid()) ==> Valid()
    {
      FinishProgressLine();
      out := out + [Text("[ABORT]   Playback aborted")];
      if reason != [] {
        out := out + [Text(" (" + reason + ")")];
      }
      out := out + [Text("\n")];
    }

    method PrintShutdown()
      modifies this
      ensures out == old(out) + Rendered(old(onProgressLine), Shutdown)
      ensures onProgressLine == OnLineAfter(old(onProgressLine), Shutdown)
      ensures old(Valid()) ==> Valid()
    {
      FinishProgressLine();
      out := out + [Text("[STOP]    Shutting down.\n")];
    }
  }
}
