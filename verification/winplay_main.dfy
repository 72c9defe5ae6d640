/** The Windows player's entry point
    (client/windows-native/winplay/src/main.cpp): command-line arguments, and
    the receive loop that moves between WAITING, PREPARED, PLAYING and STOPPED
    as transport messages arrive.

    The socket, the protobuf decoder and the audio device are not modelled:
    each loop iteration takes the datagram received and the player's answers
    as inputs, and the requests made to the player are returned as a log. */
module Receiver {
  import Console
  import opened PathTranslation

  // ------------------------------------------------------------------ basename_of

  predicate IsSeparator(c: char) {
    c == '/' || c == '\\'
  }

  /** The part of a path after its last '/' or '\'; the whole path when it has neither. */
  function Basename(path: string): string
    decreases |path|
  {
    if path == [] then []
    else if IsSeparator(path[|path| - 1]) then []
    else Basename(path[..|path| - 1]) + [path[|path| - 1]]
  }

  /** The basename is a suffix of the path without separators, preceded by a
      separator unless it is the whole path. */
  lemma {:induction false} BasenameFacts(path: string)
    ensures |Basename(path)| <= |path|
    ensures path[|path| - |Basename(path)|..] == Basename(path)
    ensures forall i :: 0 <= i < |Basename(path)| ==> !IsSeparator(Basename(path)[i])
    ensures |Basename(path)| < |path| ==> IsSeparator(path[|path| - |Basename(path)| - 1])
    decreases |path|
  {
    if path != [] && !IsSeparator(path[|path| - 1]) {
      var init := path[..|path| - 1];
      BasenameFacts(init);
      var b := Basename(init);
      assert path[|path| - |b| - 1..] == init[|init| - |b|..] + [path[|path| - 1]];
      if |b| < |init| {
        assert path[|path| - |b| - 2] == init[|init| - |b| - 1];
      }
    }
  }

  /** A path without separators is its own basename. */
  lemma {:induction false} BasenameWhole(path: string)
    requires forall i :: 0 <= i < |path| ==> !IsSeparator(path[i])
    ensures Basename(path) == path
    decreases |path|
  {
    if path != [] {
      BasenameWhole(path[..|path| - 1]);
    }
  }

  // ------------------------------------------------------------------ arguments

  /** C `isspace` in the "C" locale. */
  predicate IsSpace(c: char) {
    c == ' ' || c == '\t' || c == '\n' || c == '\U{B}' || c == '\U{C}' || c == '\r'
  }

  function SkipSpace(s: string): string
    decreases |s|
  {
    if s != [] && IsSpace(s[0]) then SkipSpace(s[1..]) else s
  }

  function LeadingDigits(s: string): string
    decreases |s|
  {
    if s != [] && Console.IsDigit(s[0]) then [s[0]] + LeadingDigits(s[1..]) else []
  }

  /** C `atoi`: leading white space, an optional sign, then as many digits as
      follow; zero when there are none. */
  function Atoi(s: string): int {
    var t := SkipSpace(s);
    if t != [] && t[0] == '-' then -Console.Value(LeadingDigits(t[1..]))
    else if t != [] && t[0] == '+' then Console.Value(LeadingDigits(t[1..]))
    else Console.Value(LeadingDigits(t))
  }

  /** The port an argument names: `atoi` converted to a 16-bit unsigned
      integer, which reduces it modulo 2^16. */
  function PortOf(s: string): (p: nat)
    ensures p < 0x1_0000
  {
    Atoi(s) % 0x1_0000
  }

  lemma {:induction false} LeadingDigitsAll(s: string)
    requires forall i :: 0 <= i < |s| ==> Console.IsDigit(s[i])
    ensures LeadingDigits(s) == s
    decreases |s|
  {
    if s != [] {
      LeadingDigitsAll(s[1..]);
    }
  }

  /** `atoi` reads back the decimal digits of any number. */
  lemma AtoiDigits(n: nat)
    ensures Atoi(Console.Digits(n)) == n
  {
    var s := Console.Digits(n);
    Console.DigitsValue(n);
    assert !IsSpace(s[0]) && s[0] != '-' && s[0] != '+';
    LeadingDigitsAll(s);
  }

  /** Port numbers from 2^16 on wrap around. */
  lemma PortWraps(n: nat)
    ensures PortOf(Console.Digits(n)) == n % 0x1_0000
  {
    AtoiDigits(n);
  }

  /** How a run ends after reading its arguments: serving on a port for a
      distribution, or exiting with a status (0 after the usage text, 1 after
      an unknown argument). */
  datatype Launch = Listen(port: nat, distro: string) | Exit(code: int)

  const DefaultPort := 5000
  const DefaultDistro := "Ubuntu"

  predicate IsPortFlag(a: string) { a == "--port" || a == "-p" }
  predicate IsHelpFlag(a: string) { a == "--help" || a == "-h" }

  /** The argument loop from `argv[i]` on: an option taking a value consumes
      the next argument when there is one; help stops the loop; anything else,
      an option missing its value included, is an unknown argument. */
  function ArgsFrom(argv: seq<string>, i: nat, port: nat, distro: string): (r: Launch)
    requires port < 0x1_0000
    ensures r.Listen? ==> r.port < 0x1_0000
    ensures r.Exit? ==> r.code == 0 || r.code == 1
    decreases |argv| - i
  {
    if i >= |argv| then Listen(port, distro)
    else if IsPortFlag(argv[i]) && i + 1 < |argv| then ArgsFrom(argv, i + 2, PortOf(argv[i + 1]), distro)
    else if argv[i] == "--distro" && i + 1 < |argv| then ArgsFrom(argv, i + 2, port, argv[i + 1])
    else if IsHelpFlag(argv[i]) then Exit(0)
    else Exit(1)
  }

  /** The arguments after the program name, from the defaults. */
  function ParseArgs(argv: seq<string>): Launch {
    ArgsFrom(argv, 1, DefaultPort, DefaultDistro)
  }

  method ParseArguments(argv: seq<string>) returns (r: Launch)
    ensures r == ParseArgs(argv)
  {
    var port: nat := DefaultPort;
    var distro := DefaultDistro;
    var i := 1;
    while i < |argv|
      invariant 1 <= i
      invariant port < 0x1_0000
      invariant ParseArgs(argv) == ArgsFrom(argv, i, port, distro)
      decreases |argv| - i
    {
      if IsPortFlag(argv[i]) && i + 1 < |argv| {
        i := i + 1;
        port := PortOf(argv[i]);
      } else if argv[i] == "--distro" && i + 1 < |argv| {
        i := i + 1;
        distro := argv[i];
      } else if IsHelpFlag(argv[i]) {
        return Exit(0);
      } else {
        return Exit(1);
      }
      i := i + 1;
    }
    return Listen(port, distro);
  }

  /** Without arguments the player serves on port 5000 for "Ubuntu". */
  lemma Defaults(program: string)
    ensures ParseArgs([program]) == Listen(5000, "Ubuntu")
  {
  }

  /** Each option with its value sets its setting. */
  lemma {:induction false} PortAndDistro(program: string, n: nat, distro: string)
    ensures ParseArgs([program, "--port", Console.Digits(n), "--distro", distro]) == Listen(n % 0x1_0000, distro)
    ensures ParseArgs([program, "-p", Console.Digits(n)]) == Listen(n % 0x1_0000, DefaultDistro)
  {
    PortWraps(n);
    var argv := [program, "--port", Console.Digits(n), "--distro", distro];
    assert ArgsFrom(argv, 1, DefaultPort, DefaultDistro) == ArgsFrom(argv, 3, n % 0x1_0000, DefaultDistro);
    assert ArgsFrom(argv, 3, n % 0x1_0000, DefaultDistro) == ArgsFrom(argv, 5, n % 0x1_0000, distro);
    var short := [program, "-p", Console.Digits(n)];
    assert ArgsFrom(short, 1, DefaultPort, DefaultDistro) == ArgsFrom(short, 3, n % 0x1_0000, DefaultDistro);
  }

  /** Help exits with 0 wherever the loop reaches it, ignoring what follows. */
  lemma HelpExits(argv: seq<string>, i: nat, port: nat, distro: string)
    requires port < 0x1_0000 && i < |argv| && IsHelpFlag(argv[i])
    ensures ArgsFrom(argv, i, port, distro) == Exit(0)
  {
  }

  /** An option missing its value is an unknown argument. */
  lemma DanglingOption(program: string, option: string)
    requires IsPortFlag(option) || option == "--distro"
    ensures ParseArgs([program, option]) == Exit(1)
  {
  }

  // ------------------------------------------------------------------ the receive loop

  datatype State = Waiting | Prepared | Playing | Stopped

  /** What one receive yields: nothing (a timeout or an error), bytes that do
      not parse as an envelope, or an envelope, of which only the four
      transport messages matter. */
  datatype Datagram =
    | NoData
    | Unparsable
    | TrackPrepare(filename: string, countdown: real)
    | TrackStart(filename: string, duration: real)
    | TrackEnd
    | TrackAbort(reason: string)
    | OtherEvent

  /** The player's answers during one iteration: whether a prepare and a start
      succeed, the prepared file's duration, the playback position and whether
      the decoder reached the end of the file. */
  datatype Reply = Reply(prepared: bool, fileDuration: real, started: bool, position: real, finished: bool)

  /** One loop iteration's input. */
  datatype Exchange = Exchange(datagram: Datagram, reply: Reply)

  /** The loop's variables: the state, the file shown and its duration. */
  datatype Session = Session(state: State, file: string, duration: real)

  /** What the loop asks of the player. */
  datatype Request = Open(path: string) | Start | Stop

  const Initial := Session(Waiting, "", 0.0)

  /** The effect of the message switch. TRACK_PREPARE opens the file in any
      state; TRACK_START opens it first when nothing was prepared, and starts
      playback from WAITING or PREPARED; TRACK_END and TRACK_ABORT stop. */
  function Handle(s: Session, d: Datagram, r: Reply): Session {
    match d
    case TrackPrepare(f, _) =>
      if r.prepared then Session(Prepared, Basename(f), r.fileDuration)
      else s.(state := Stopped, file := Basename(f))
    case TrackStart(f, duration) =>
      if s.state == Waiting then
        if !r.prepared then Session(Stopped, Basename(f), duration)
        else Session(if r.started then Playing else Stopped, Basename(f), duration)
      else if s.state == Prepared then s.(state := if r.started then Playing else Stopped)
      else s
    case TrackEnd => s.(state := Stopped)
    case TrackAbort(_) => s.(state := Stopped)
    case _ => s
  }

  /** One loop iteration: an unparsable datagram skips the rest of the
      iteration; otherwise, after the switch, a playing session that the
      decoder finished stops. */
  function Advance(s: Session, d: Datagram, r: Reply): Session {
    if d.Unparsable? then s else Progressed(Handle(s, d, r), r)
  }

  /** After the switch: a playing session that the decoder finished stops. */
  function Progressed(h: Session, r: Reply): Session {
    if h.state == Playing && r.finished then h.(state := Stopped) else h
  }

  /** The requests an iteration makes of the player, with translated paths. */
  function Requests(t: PathTranslator, s: Session, d: Datagram, r: Reply): seq<Request> {
    match d
    case TrackPrepare(f, _) => [Open(t.Translate(f))]
    case TrackStart(f, _) =>
      if s.state == Waiting then [Open(t.Translate(f))] + (if r.prepared then [Start] else [])
      else if s.state == Prepared then [Start]
      else []
    case TrackEnd => [Stop]
    case TrackAbort(_) => [Stop]
    case _ => []
  }

  /** The console calls of the message switch. */
  function SwitchCalls(d: Datagram): seq<Console.Call> {
    match d
    case TrackPrepare(f, countdown) => [Console.Prepare(Basename(f), countdown)]
    case TrackEnd => [Console.Ended]
    case TrackAbort(reason) => [Console.Aborted(reason)]
    case _ => []
  }

  /** The console calls of an iteration: the switch's, then, while playing, a
      redraw of the progress line and, when the decoder finished, the end message. */
  function Calls(s: Session, d: Datagram, r: Reply): seq<Console.Call> {
    if d.Unparsable? then [] else SwitchCalls(d) + ProgressCalls(Handle(s, d, r), r)
  }

  /** The console calls after the switch: while playing, a redraw of the
      progress line and, when the decoder finished, the end message. */
  function ProgressCalls(h: Session, r: Reply): seq<Console.Call> {
    if h.state == Playing then [Console.Playing(h.file, r.position, h.duration)] + (if r.finished then [Console.Ended] else []) else []
  }

  lemma RenderOne(onLine: bool, c: Console.Call)
    ensures Console.RenderAll(onLine, [c]) == Console.Rendered(onLine, c)
    ensures Console.OnLineAfterAll(onLine, [c]) == Console.OnLineAfter(onLine, c)
  {
    assert [c][1..] == [];
  }

  /** The console calls after the switch, while playing. */
  method ShowProgress(status: Console.ConsoleStatus, h: Session, r: Reply) returns (next: Session)
    modifies status
    ensures next == Progressed(h, r)
    ensures status.out == old(status.out) + Console.RenderAll(old(status.onProgressLine), ProgressCalls(h, r))
    ensures status.onProgressLine == Console.OnLineAfterAll(old(status.onProgressLine), ProgressCalls(h, r))
    ensures old(status.Valid()) ==> status.Valid()
  {
    next := h;
    ghost var shown: seq<Console.Call> := [];
    if h.state == Playing {
      var first := Console.Playing(h.file, r.position, h.duration);
      var onLine := status.onProgressLine;
      status.UpdatePlaying(h.file, r.position, h.duration);
      RenderOne(onLine, first);
      shown := [first];
      if r.finished {
        status.PrintEnded();
        RenderOne(true, Console.Ended);
        Console.RenderAllAppend(onLine, [first], [Console.Ended]);
        shown := shown + [Console.Ended];
        next := h.(state := Stopped);
      }
    }
  }

  /** The message switch. */
  method HandleDatagram(t: PathTranslator, status: Console.ConsoleStatus, s: Session, d: Datagram, r: Reply)
    returns (h: Session, requests: seq<Request>)
    modifies status
    ensures h == Handle(s, d, r)
    ensures requests == Requests(t, s, d, r)
    ensures status.out == old(status.out) + Console.RenderAll(old(status.onProgressLine), SwitchCalls(d))
    ensures status.onProgressLine == Console.OnLineAfterAll(old(status.onProgressLine), SwitchCalls(d))
    ensures old(status.Valid()) ==> status.Valid()
  {
    var state, currentFile, currentDuration := s.state, s.file, s.duration;
    requests := [];
    var onLine := status.onProgressLine;
    match d {
      case TrackPrepare(f, countdown) =>
        var winPath := t.Translate(f);
        currentFile := Basename(f);
        status.PrintPrepare(currentFile, countdown);
        RenderOne(onLine, Console.Prepare(currentFile, countdown));
        requests := [Open(winPath)];
        if !r.prepared {
          state := Stopped;
        } else {
          currentDuration := r.fileDuration;
          state := Prepared;
        }
      case TrackStart(f, duration) =>
        if state == Prepared || state == Waiting {
          var failed := false;
          if state == Waiting {
            var winPath := t.Translate(f);
            currentFile := Basename(f);
            currentDuration := duration;
            requests := [Open(winPath)];
            if !r.prepared {
              state := Stopped;
              failed := true;
            }
          }
          if !failed {
            requests := requests + [Start];
            if r.started {
              state := Playing;
            } else {
              state := Stopped;
            }
          }
        }
      case TrackEnd =>
        requests := [Stop];
        status.PrintEnded();
        RenderOne(onLine, Console.Ended);
        state := Stopped;
      case TrackAbort(reason) =>
        requests := [Stop];
        status.PrintAborted(reason);
        RenderOne(onLine, Console.Aborted(reason));
        state := Stopped;
      case _ =>
    }
    h := Session(state, currentFile, currentDuration);
  }

  lemma Associative<T>(a: seq<T>, b: seq<T>, c: seq<T>)
    ensures a + b + c == a + (b + c)
  {
  }

  /** One iteration of the receive loop. */
  method Step(t: PathTranslator, status: Console.ConsoleStatus, s: Session, d: Datagram, r: Reply)
    returns (next: Session, requests: seq<Request>)
    modifies status
    ensures next == Advance(s, d, r)
    ensures requests == Requests(t, s, d, r)
    ensures status.out == old(status.out) + Console.RenderAll(old(status.onProgressLine), Calls(s, d, r))
    ensures status.onProgressLine == Console.OnLineAfterAll(old(status.onProgressLine), Calls(s, d, r))
    ensures old(status.Valid()) ==> status.Valid()
  {
    if d.Unparsable? {
      next, requests := s, [];
      assert Calls(s, d, r) == [];
      assert Console.RenderAll(status.onProgressLine, []) == [];
      return;
    }
    var onLine := status.onProgressLine;
    ghost var out0 := status.out;
    var h;
    h, requests := HandleDatagram(t, status, s, d, r);
    next := ShowProgress(status, h, r);
    Console.RenderAllAppend(onLine, SwitchCalls(d), ProgressCalls(h, r));
    Associative(out0, Console.RenderAll(onLine, SwitchCalls(d)),
      Console.RenderAll(Console.OnLineAfterAll(onLine, SwitchCalls(d)), ProgressCalls(h, r)));
  }

  // ------------------------------------------------------------------ the whole loop

  /** What the receive loop leaves behind: the final session, the console
      calls and player requests it made, and whether it ended on a shutdown. */
  datatype Trace = Trace(final: Session, calls: seq<Console.Call>, requests: seq<Request>, interrupted: bool)

  function Prepend(calls: seq<Console.Call>, requests: seq<Request>, tr: Trace): Trace {
    Trace(tr.final, calls + tr.calls, requests + tr.requests, tr.interrupted)
  }

  lemma PrependTwice(c1: seq<Console.Call>, r1: seq<Request>, c2: seq<Console.Call>, r2: seq<Request>, tr: Trace)
    ensures Prepend(c1, r1, Prepend(c2, r2, tr)) == Prepend(c1 + c2, r1 + r2, tr)
  {
    Associative(c1, c2, tr.calls);
    Associative(r1, r2, tr.requests);
  }

  /** The loop over the received datagrams: it runs while no shutdown was seen
      (`quiet` more checks see none) and the state is not STOPPED. */
  function Loop(t: PathTranslator, s: Session, script: seq<Exchange>, quiet: nat): Trace
    decreases |script|
  {
    if quiet == 0 then Trace(s, [], [], true)
    else if script == [] || s.state == Stopped then Trace(s, [], [], false)
    else
      var x := script[0];
      Prepend(Calls(s, x.datagram, x.reply), Requests(t, s, x.datagram, x.reply),
        Loop(t, Advance(s, x.datagram, x.reply), script[1..], quiet - 1))
  }

  // ------------------------------------------------------------------ transitions

  /** TRACK_PREPARE, in any state, shows the file's basename, opens the
      translated path, and moves to PREPARED when that succeeds and to STOPPED
      when it fails. */
  lemma PrepareInAnyState(t: PathTranslator, s: Session, f: string, countdown: real, r: Reply)
    ensures Advance(s, TrackPrepare(f, countdown), r).state == (if r.prepared then Prepared else Stopped)
    ensures Advance(s, TrackPrepare(f, countdown), r).file == Basename(f)
    ensures Requests(t, s, TrackPrepare(f, countdown), r) == [Open(t.Translate(f))]
    ensures Calls(s, TrackPrepare(f, countdown), r) == [Console.Prepare(Basename(f), countdown)]
  {
  }

  /** TRACK_START opens the file first in WAITING, starts playback from WAITING
      or PREPARED, and is ignored while PLAYING. */
  lemma StartTransitions(t: PathTranslator, s: Session, f: string, duration: real, r: Reply)
    ensures s.state == Waiting ==>
      (Handle(s, TrackStart(f, duration), r).state == Playing <==> r.prepared && r.started)
      && Requests(t, s, TrackStart(f, duration), r) == [Open(t.Translate(f))] + (if r.prepared then [Start] else [])
      && Handle(s, TrackStart(f, duration), r).file == Basename(f)
      && Handle(s, TrackStart(f, duration), r).duration == duration
    ensures s.state == Prepared ==>
      (Handle(s, TrackStart(f, duration), r).state == Playing <==> r.started)
      && Requests(t, s, TrackStart(f, duration), r) == [Start]
      && Handle(s, TrackStart(f, duration), r).file == s.file
      && Handle(s, TrackStart(f, duration), r).duration == s.duration
    ensures s.state == Playing ==>
      Handle(s, TrackStart(f, duration), r) == s && Requests(t, s, TrackStart(f, duration), r) == []
    ensures Handle(s, TrackStart(f, duration), r).state != Playing ==>
      Handle(s, TrackStart(f, duration), r).state == Stopped || Handle(s, TrackStart(f, duration), r).state == s.state
  {
  }

  /** TRACK_END and TRACK_ABORT stop the player and the loop from any state. */
  lemma EndAndAbortStop(t: PathTranslator, s: Session, d: Datagram, r: Reply)
    requires d.TrackEnd? || d.TrackAbort?
    ensures Advance(s, d, r).state == Stopped
    ensures Requests(t, s, d, r) == [Stop]
  {
  }

  /** Silence and analysis events change nothing but the progress display; an
      unparsable datagram skips even that, and with it the end-of-file check. */
  lemma IgnoredDatagrams(t: PathTranslator, s: Session, d: Datagram, r: Reply)
    ensures d.NoData? || d.OtherEvent? ==>
      Handle(s, d, r) == s && Requests(t, s, d, r) == [] && Advance(s, d, r) == Progressed(s, r)
    ensures d.Unparsable? ==> Advance(s, d, r) == s && Calls(s, d, r) == [] && Requests(t, s, d, r) == []
  {
  }

  /** A playing session whose decoder finished stops, after a last redraw and
      the end message. */
  lemma FinishedStops(s: Session, d: Datagram, r: Reply)
    requires !d.Unparsable? && Handle(s, d, r).state == Playing && r.finished
    ensures Advance(s, d, r).state == Stopped
    ensures Calls(s, d, r)[|Calls(s, d, r)| - 1] == Console.Ended
  {
  }

  /** Playback begins only through a successful start request. */
  lemma PlayingNeedsStart(t: PathTranslator, s: Session, d: Datagram, r: Reply)
    requires s.state != Playing && Advance(s, d, r).state == Playing
    ensures d.TrackStart? && r.started
    ensures Start in Requests(t, s, d, r)
  {
  }

  /** Every path handed to the player is the translation of the announced file. */
  lemma OpensTranslated(t: PathTranslator, s: Session, d: Datagram, r: Reply)
    ensures forall q :: q in Requests(t, s, d, r) && q.Open? ==>
      (d.TrackPrepare? || d.TrackStart?) && q.path == t.Translate(d.filename)
  {
  }

  /** STOPPED ends the loop: nothing more is received, shown or requested. */
  lemma StoppedIsTerminal(t: PathTranslator, s: Session, script: seq<Exchange>, quiet: nat)
    requires s.state == Stopped
    ensures Loop(t, s, script, quiet) == Trace(s, [], [], quiet == 0)
  {
  }

  /** The usual session: TRACK_PREPARE opens the file, TRACK_START starts it,
      and the loop stops by itself when the decoder reaches the end. */
  lemma {:induction false} UsualSession(t: PathTranslator, f: string, countdown: real, length: real, duration: real)
    ensures var script := [
        Exchange(TrackPrepare(f, countdown), Reply(true, length, false, 0.0, false)),
        Exchange(TrackStart(f, duration), Reply(false, 0.0, true, 0.5, false)),
        Exchange(NoData, Reply(false, 0.0, false, length, true))];
      Loop(t, Initial, script, 100) == Trace(
        Session(Stopped, Basename(f), length),
        [Console.Prepare(Basename(f), countdown), Console.Playing(Basename(f), 0.5, length),
         Console.Playing(Basename(f), length, length), Console.Ended],
        [Open(t.Translate(f)), Start],
        false)
  {
    var script := [
        Exchange(TrackPrepare(f, countdown), Reply(true, length, false, 0.0, false)),
        Exchange(TrackStart(f, duration), Reply(false, 0.0, true, 0.5, false)),
        Exchange(NoData, Reply(false, 0.0, false, length, true))];
    var s1 := Session(Prepared, Basename(f), length);
    var s2 := Session(Playing, Basename(f), length);
    var s3 := Session(Stopped, Basename(f), length);
    assert script[1..][1..][1..] == [];
    assert Loop(t, s3, [], 97) == Trace(s3, [], [], false);
    assert Loop(t, s2, script[1..][1..], 98)
      == Trace(s3, [Console.Playing(Basename(f), length, length), Console.Ended], [], false);
    assert Loop(t, s1, script[1..], 99)
      == Trace(s3, [Console.Playing(Basename(f), 0.5, length), Console.Playing(Basename(f), length, length), Console.Ended], [Start], false);
  }

  /** After a call other than the banner, the cursor is on the progress line
      exactly when that call drew it. */
  lemma {:induction false} OnLineAfterLast(onLine: bool, cs: seq<Console.Call>)
    requires forall i :: 0 <= i < |cs| ==> !cs[i].Banner?
    ensures Console.OnLineAfterAll(onLine, cs) == (if cs == [] then onLine else cs[|cs| - 1].Playing?)
    decreases |cs|
  {
    if cs != [] {
      OnLineAfterLast(Console.OnLineAfter(onLine, cs[0]), cs[1..]);
    }
  }

  /** The console protocol in the loop: the cursor is on the progress line
      exactly while the session is playing. */
  lemma {:induction false} FlagTracksPlaying(s: Session, d: Datagram, r: Reply)
    ensures Console.OnLineAfterAll(s.state == Playing, Calls(s, d, r)) <==> Advance(s, d, r).state == Playing
  {
    var cs := Calls(s, d, r);
    OnLineAfterLast(s.state == Playing, cs);
  }

  lemma PrependNothing(tr: Trace)
    ensures Prepend([], [], tr) == tr
  {
  }

  /** The loop ends on a shutdown, on STOPPED, or when the modelled input is exhausted. */
  lemma LoopEnds(t: PathTranslator, s: Session, script: seq<Exchange>, quiet: nat)
    requires script == [] || quiet == 0 || s.state == Stopped
    ensures Loop(t, s, script, quiet) == Trace(s, [], [], quiet == 0)
  {
  }

  /** One turn of the receive loop, with what it adds to the loop's results. */
  method Turn(t: PathTranslator, status: Console.ConsoleStatus, script: seq<Exchange>, shutdownAt: nat, i: nat,
              s: Session, requests: seq<Request>, ghost shown: seq<Console.Call>, ghost base: seq<Console.Piece>)
    returns (next: Session, requests': seq<Request>, ghost shown': seq<Console.Call>)
    requires i < |script| && i < shutdownAt && s.state != Stopped
    requires Loop(t, Initial, script, shutdownAt) == Prepend(shown, requests, Loop(t, s, script[i..], shutdownAt - i))
    requires status.out == base + Console.RenderAll(false, shown)
    requires status.onProgressLine == Console.OnLineAfterAll(false, shown)
    requires status.Valid()
    requires status.onProgressLine <==> s.state == Playing
    modifies status
    ensures Loop(t, Initial, script, shutdownAt) == Prepend(shown', requests', Loop(t, next, script[i + 1..], shutdownAt - i - 1))
    ensures status.out == base + Console.RenderAll(false, shown')
    ensures status.onProgressLine == Console.OnLineAfterAll(false, shown')
    ensures status.Valid()
    ensures status.onProgressLine <==> next.state == Playing
  {
    var x := script[i];
    ghost var now := Calls(s, x.datagram, x.reply);
    ghost var rest := Loop(t, Advance(s, x.datagram, x.reply), script[i + 1..], shutdownAt - i - 1);
    ghost var asking := Requests(t, s, x.datagram, x.reply);
    assert Loop(t, Initial, script, shutdownAt) == Prepend(shown + now, requests + asking, rest) by {
      assert script[i..][0] == x && script[i..][1..] == script[i + 1..];
      assert Loop(t, s, script[i..], shutdownAt - i) == Prepend(now, asking, rest);
      PrependTwice(shown, requests, now, asking, rest);
    }
    ghost var flag := status.onProgressLine;
    assert Console.OnLineAfterAll(flag, now) <==> Advance(s, x.datagram, x.reply).state == Playing by {
      FlagTracksPlaying(s, x.datagram, x.reply);
    }
    var asked;
    next, asked := Step(t, status, s, x.datagram, x.reply);
    assert status.out == base + Console.RenderAll(false, shown + now)
        && status.onProgressLine == Console.OnLineAfterAll(false, shown + now) by {
      Console.RenderAllAppend(false, shown, now);
      Associative(base, Console.RenderAll(false, shown), Console.RenderAll(flag, now));
    }
    shown' := shown + now;
    requests' := requests + asked;
  }

  /** The receive loop, from WAITING with the cursor at the start of a line. */
  method ReceiveLoop(t: PathTranslator, status: Console.ConsoleStatus, script: seq<Exchange>, shutdownAt: nat)
    returns (final: Session, requests: seq<Request>, interrupted: bool)
    requires status.Valid() && !status.onProgressLine
    modifies status
    ensures Loop(t, Initial, script, shutdownAt) == Trace(final, Loop(t, Initial, script, shutdownAt).calls, requests, interrupted)
    ensures status.out == old(status.out) + Console.RenderAll(false, Loop(t, Initial, script, shutdownAt).calls)
    ensures status.onProgressLine == Console.OnLineAfterAll(false, Loop(t, Initial, script, shutdownAt).calls)
    ensures status.Valid()
    ensures status.onProgressLine <==> final.state == Playing
  {
    var s := Initial;
    requests := [];
    ghost var shown: seq<Console.Call> := [];
    var i := 0;
    PrependNothing(Loop(t, s, script, shutdownAt));
    while i < |script| && i < shutdownAt && s.state != Stopped
      invariant i <= |script| && i <= shutdownAt
      invariant Loop(t, Initial, script, shutdownAt) == Prepend(shown, requests, Loop(t, s, script[i..], shutdownAt - i))
      invariant status.out == old(status.out) + Console.RenderAll(false, shown)
      invariant status.onProgressLine == Console.OnLineAfterAll(false, shown)
      invariant status.Valid()
      invariant status.onProgressLine <==> s.state == Playing
      decreases |script| - i
    {
      s, requests, shown := Turn(t, status, script, shutdownAt, i, s, requests, shown, old(status.out));
      i := i + 1;
    }
    LoopEnds(t, s, script[i..], shutdownAt - i);
    assert shown + [] == shown && requests + [] == requests;
    final := s;
    interrupted := i >= shutdownAt;
  }

  /** The serving part of the player: the banner, then the receive loop over
      `script`, of which the first `shutdownAt` iterations see no Ctrl-C, then
      a stop and a shutdown message when a Ctrl-C was seen. */
  method Serve(t: PathTranslator, port: nat, script: seq<Exchange>, shutdownAt: nat)
    returns (status: Console.ConsoleStatus, final: Session, requests: seq<Request>)
    ensures fresh(status)
    ensures final == Loop(t, Initial, script, shutdownAt).final
    ensures requests == Loop(t, Initial, script, shutdownAt).requests
      + (if Loop(t, Initial, script, shutdownAt).interrupted then [Stop] else [])
    ensures status.out == Console.RenderAll(false, [Console.Banner(port)] + Loop(t, Initial, script, shutdownAt).calls
      + (if Loop(t, Initial, script, shutdownAt).interrupted then [Console.Shutdown] else []))
    ensures status.Valid()
    ensures status.onProgressLine <==> final.state == Playing && !Loop(t, Initial, script, shutdownAt).interrupted
  {
    status := new Console.ConsoleStatus();
    status.PrintBanner(port);
    ghost var calls := Loop(t, Initial, script, shutdownAt).calls;
    ghost var head := [Console.Banner(port)] + calls;
    assert head[0] == Console.Banner(port) && head[1..] == calls;
    assert Console.RenderAll(false, head) == status.out + Console.RenderAll(false, calls);
    assert Console.OnLineAfterAll(false, head) == Console.OnLineAfterAll(false, calls);
    var interrupted;
    final, requests, interrupted := ReceiveLoop(t, status, script, shutdownAt);
    if interrupted {
      var onLine := status.onProgressLine;
      requests := requests + [Stop];
      status.PrintShutdown();
      RenderOne(onLine, Console.Shutdown);
      Console.RenderAllAppend(false, head, [Console.Shutdown]);
    } else {
      assert head + [] == head;
    }
  }
}
