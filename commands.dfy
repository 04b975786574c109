/**
 * Commands: the SDK command lines the client sends (drone.go), which of them
 * may jump the queue, how long each may wait for its reply, and how each
 * reply is judged.
 *
 * Every public method of the Go client that talks to the drone builds a
 * `cmd` record (text, canceller flag, reply handler, timeout) and hands it to
 * sendCmd.  Here the public methods are the constructors of `Command` and
 * `ToCmd` builds the record.  The reply handlers are named by `Handler` and
 * run by `RunHandler`.
 */
module Commands {
  import opened Text

  // ---------------------------------------------------------------------------
  // Constants
  // ---------------------------------------------------------------------------

  /** Timeouts, in milliseconds. */
  const DefaultTimeout: nat := 5000
  const TwentySeconds: nat := 20000
  const OneMinute: nat := 60000

  /** Event names. */
  const LandEvent: string := "land"
  const StateEvent: string := "state"
  const TakeOffEvent: string := "take.off"
  const VideoPacketEvent: string := "video.packet"

  /** Flip directions. */
  const FlipBack: string := "b"
  const FlipForward: string := "f"
  const FlipLeft: string := "l"
  const FlipRight: string := "r"

  // ---------------------------------------------------------------------------
  // Commands
  // ---------------------------------------------------------------------------

  /** The eight moves that take one distance (cm) or angle (degrees). */
  datatype Direction = Up | Down | Left | Right | Forward | Back | Clockwise | CounterClockwise
  {
    function Keyword(): string {
      match this
      case Up => "up"
      case Down => "down"
      case Left => "left"
      case Right => "right"
      case Forward => "forward"
      case Back => "back"
      case Clockwise => "cw"
      case CounterClockwise => "ccw"
    }
  }

  /** One call of the client's public command methods, with its arguments. */
  datatype Command =
    | Handshake                       // command(), sent by Start
    | TakeOff
    | Land
    | Emergency
    | Move(dir: Direction, x: Int64)  // Up ... RotateCounterClockwise
    | Flip(flipDir: string)
    | Go(x: Int64, y: Int64, z: Int64, speed: Int64)
    | Curve(x1: Int64, y1: Int64, z1: Int64, x2: Int64, y2: Int64, z2: Int64, speed: Int64)
    | SetSticks(lr: Int64, fb: Int64, ud: Int64, yaw: Int64)
    | SetWifi(ssid: string, password: string)
    | WifiQuery
    | SetSpeed(cms: Int64)
    | SpeedQuery
    | StartVideo
    | StopVideo

  /** The reply handler a command carries. */
  datatype Handler =
    | NoHandler              // no reply is awaited
    | Default                // defaultRespHandler
    | WithEvent(name: string) // respHandlerWithEvent(name)
    | WifiSnr                // Wifi's Atoi handler
    | SpeedValue             // Speed's ParseFloat handler

  /** The `cmd` record sendCmd works on; the timeout is in milliseconds. */
  datatype Cmd = Cmd(canceller: bool, text: string, handler: Handler, timeout: nat)

  /** The words of a command line, before they are joined by single spaces. */
  function Words(c: Command): (ws: seq<string>)
    ensures ws != []
  {
    match c
    case Handshake => ["command"]
    case TakeOff => ["takeoff"]
    case Land => ["land"]
    case Emergency => ["emergency"]
    case Move(d, x) => [d.Keyword(), FormatInt(x)]
    case Flip(dir) => ["flip", dir]
    case Go(x, y, z, s) => ["go"] + IntWords([x, y, z, s])
    case Curve(x1, y1, z1, x2, y2, z2, s) => ["curve"] + IntWords([x1, y1, z1, x2, y2, z2, s])
    case SetSticks(lr, fb, ud, y) => ["rc"] + IntWords([lr, fb, ud, y])
    case SetWifi(ssid, pw) => ["wifi", ssid, pw]
    case WifiQuery => ["wifi?"]
    case SetSpeed(x) => ["speed", FormatInt(x)]
    case SpeedQuery => ["speed?"]
    case StartVideo => ["streamon"]
    case StopVideo => ["streamoff"]
  }

  function IntWords(ns: seq<Int64>): (ws: seq<string>)
    ensures |ws| == |ns|
    ensures forall k :: 0 <= k < |ns| ==> ws[k] == FormatInt(ns[k])
  {
    if ns == [] then [] else [FormatInt(ns[0])] + IntWords(ns[1..])
  }

  /** The command line: fmt.Sprintf of the command's format with %d as a
      plain decimal and %s as the string itself. */
  function Format(c: Command): string {
    Join(Words(c))
  }

  /** The record each public method hands to sendCmd. */
  function ToCmd(c: Command): (r: Cmd)
    ensures r.text == Format(c)
    ensures r.canceller <==> c.Emergency? || c.Land?
    ensures r.handler.NoHandler? <==> c.Emergency? || c.SetSticks?
    ensures c.TakeOff? ==> r.handler == WithEvent(TakeOffEvent)
    ensures c.Land? ==> r.handler == WithEvent(LandEvent)
    ensures c.WifiQuery? ==> r.handler == WifiSnr
    ensures c.SpeedQuery? ==> r.handler == SpeedValue
    ensures !(c.Emergency? || c.SetSticks? || c.TakeOff? || c.Land? || c.WifiQuery? || c.SpeedQuery?) ==>
      r.handler == Default
    ensures c.Move? || c.Go? || c.Curve? ==> r.timeout == OneMinute
    ensures c.TakeOff? || c.Land? || c.Flip? ==> r.timeout == TwentySeconds
    ensures !(c.Move? || c.Go? || c.Curve? || c.TakeOff? || c.Land? || c.Flip?) ==> r.timeout == DefaultTimeout
  {
    match c
    case Handshake => Cmd(false, Format(c), Default, DefaultTimeout)
    case TakeOff => Cmd(false, Format(c), WithEvent(TakeOffEvent), TwentySeconds)
    case Land => Cmd(true, Format(c), WithEvent(LandEvent), TwentySeconds)
    case Emergency => Cmd(true, Format(c), NoHandler, DefaultTimeout)
    case Move(_, _) => Cmd(false, Format(c), Default, OneMinute)
    case Flip(_) => Cmd(false, Format(c), Default, TwentySeconds)
    case Go(_, _, _, _) => Cmd(false, Format(c), Default, OneMinute)
    case Curve(_, _, _, _, _, _, _) => Cmd(false, Format(c), Default, OneMinute)
    case SetSticks(_, _, _, _) => Cmd(false, Format(c), NoHandler, DefaultTimeout)
    case SetWifi(_, _) => Cmd(false, Format(c), Default, DefaultTimeout)
    case WifiQuery => Cmd(false, Format(c), WifiSnr, DefaultTimeout)
    case SetSpeed(_) => Cmd(false, Format(c), Default, DefaultTimeout)
    case SpeedQuery => Cmd(false, Format(c), SpeedValue, DefaultTimeout)
    case StartVideo => Cmd(false, Format(c), Default, DefaultTimeout)
    case StopVideo => Cmd(false, Format(c), Default, DefaultTimeout)
  }

  /** Only Emergency and Land may jump the queue. */
  lemma CancellerCommands(c: Command)
    ensures ToCmd(c).canceller <==> c == Emergency || c == Land
  {
  }

  /** Only Emergency and SetSticks send without waiting for a reply. */
  lemma FireAndForgetCommands(c: Command)
    ensures ToCmd(c).handler == NoHandler <==> c == Emergency || c.SetSticks?
  {
  }

  /** Every command waits at least the default five seconds; moves wait a
      minute, take-off, landing and flips twenty seconds, the others exactly
      the default. */
  lemma CommandTimeouts(c: Command)
    ensures ToCmd(c).timeout >= DefaultTimeout
    ensures ToCmd(c).timeout == OneMinute <==> c.Move? || c.Go? || c.Curve?
    ensures ToCmd(c).timeout == TwentySeconds <==> c.TakeOff? || c.Land? || c.Flip?
    ensures !(c.Move? || c.Go? || c.Curve? || c.TakeOff? || c.Land? || c.Flip?) ==>
      ToCmd(c).timeout == DefaultTimeout
  {
  }

  // ---------------------------------------------------------------------------
  // Reading a command line back (the drone's side of the protocol)
  // ---------------------------------------------------------------------------

  /** Words joined by single spaces. */
  function Join(ws: seq<string>): string {
    if ws == [] then "" else if |ws| == 1 then ws[0] else ws[0] + " " + Join(ws[1..])
  }

  /** The position of the first space, or the length when there is none. */
  function SpaceIndex(s: string): (i: nat)
    ensures i <= |s|
    ensures forall k :: 0 <= k < i ==> s[k] != ' '
    ensures i < |s| ==> s[i] == ' '
  {
    if s == [] || s[0] == ' ' then 0 else 1 + SpaceIndex(s[1..])
  }

  /** The line cut at every single space. */
  function Split(s: string): (ws: seq<string>)
    ensures ws != []
    decreases |s|
  {
    var i := SpaceIndex(s);
    if i == |s| then [s] else [s[..i]] + Split(s[i + 1..])
  }

  predicate NoSpace(w: string) {
    forall k :: 0 <= k < |w| ==> w[k] != ' '
  }

  /** Atoi of every word. */
  function Ints(ws: seq<string>): (r: Option<seq<Int64>>)
    ensures r.Some? ==> |r.value| == |ws|
  {
    if ws == [] then Some([])
    else match (Atoi(ws[0]), Ints(ws[1..]))
      case (Some(n), Some(ns)) => Some([n] + ns)
      case _ => None
  }

  function DirectionOf(key: string): Option<Direction> {
    if key == "up" then Some(Up)
    else if key == "down" then Some(Down)
    else if key == "left" then Some(Left)
    else if key == "right" then Some(Right)
    else if key == "forward" then Some(Forward)
    else if key == "back" then Some(Back)
    else if key == "cw" then Some(Clockwise)
    else if key == "ccw" then Some(CounterClockwise)
    else None
  }

  function ParseBare(key: string): Option<Command> {
    if key == "command" then Some(Handshake)
    else if key == "takeoff" then Some(TakeOff)
    else if key == "land" then Some(Land)
    else if key == "emergency" then Some(Emergency)
    else if key == "wifi?" then Some(WifiQuery)
    else if key == "speed?" then Some(SpeedQuery)
    else if key == "streamon" then Some(StartVideo)
    else if key == "streamoff" then Some(StopVideo)
    else None
  }

  function ParseNumeric(key: string, args: seq<Int64>): Option<Command> {
    if |args| == 1 then
      if key == "speed" then Some(SetSpeed(args[0]))
      else match DirectionOf(key)
        case Some(d) => Some(Move(d, args[0]))
        case None => None
    else if |args| == 4 && key == "go" then Some(Go(args[0], args[1], args[2], args[3]))
    else if |args| == 4 && key == "rc" then Some(SetSticks(args[0], args[1], args[2], args[3]))
    else if |args| == 7 && key == "curve" then
      Some(Curve(args[0], args[1], args[2], args[3], args[4], args[5], args[6]))
    else None
  }

  function ParseWords(ws: seq<string>): Option<Command>
    requires ws != []
  {
    if |ws| == 1 then ParseBare(ws[0])
    else if ws[0] == "flip" && |ws| == 2 then Some(Flip(ws[1]))
    else if ws[0] == "wifi" && |ws| == 3 then Some(SetWifi(ws[1], ws[2]))
    else match Ints(ws[1..])
      case Some(args) => ParseNumeric(ws[0], args)
      case None => None
  }

  /** The command a line spells, if any. */
  function ParseCommand(line: string): Option<Command> {
    ParseWords(Split(line))
  }

  // ---------------------------------------------------------------------------
  // Lemmas: distinct commands have distinct lines
  // ---------------------------------------------------------------------------

  /** A command whose string arguments are single words. */
  predicate WellFormed(c: Command) {
    match c
    case Flip(dir) => NoSpace(dir)
    case SetWifi(ssid, pw) => NoSpace(ssid) && NoSpace(pw)
    case _ => true
  }

  lemma SpaceIndexWord(w: string, rest: string)
    requires NoSpace(w)
    ensures SpaceIndex(w + " " + rest) == |w|
  {
    var s := w + " " + rest;
    assert s[|w|] == ' ';
    assert forall k :: 0 <= k < |w| ==> s[k] == w[k];
  }

  /** Splitting joined single words gives the words back. */
  lemma {:induction false} SplitJoin(ws: seq<string>)
    requires ws != []
    requires forall k :: 0 <= k < |ws| ==> NoSpace(ws[k])
    ensures Split(Join(ws)) == ws
  {
    assert NoSpace(ws[0]);
    if |ws| > 1 {
      SplitStep(ws[0], Join(ws[1..]));
      SplitJoin(ws[1..]);
      assert ws == [ws[0]] + ws[1..];
    }
  }

  lemma SplitStep(w: string, rest: string)
    requires NoSpace(w)
    ensures Split(w + " " + rest) == [w] + Split(rest)
  {
    var s := w + " " + rest;
    SpaceIndexWord(w, rest);
    assert s[..|w|] == w;
    assert s[|w| + 1..] == rest;
  }

  lemma FormatIntNoSpace(n: int)
    ensures NoSpace(FormatInt(n))
  {
    var s := FormatInt(n);
    forall k | 0 <= k < |s| ensures s[k] != ' ' {
      if k > 0 {
        assert IsDigit(s[k]);
      }
    }
  }

  lemma {:induction false} IntsFormat(ns: seq<Int64>)
    ensures Ints(IntWords(ns)) == Some(ns)
  {
    if ns != [] {
      AtoiFormat(ns[0]);
      assert IntWords(ns)[1..] == IntWords(ns[1..]);
      IntsFormat(ns[1..]);
      assert [ns[0]] + ns[1..] == ns;
    }
  }

  lemma IntWordsNoSpace(ns: seq<Int64>)
    ensures forall k :: 0 <= k < |ns| ==> NoSpace(IntWords(ns)[k])
  {
    forall k | 0 <= k < |ns| ensures NoSpace(IntWords(ns)[k]) {
      FormatIntNoSpace(ns[k]);
    }
  }

  lemma ArgWordsNoSpace(key: string, ns: seq<Int64>)
    requires NoSpace(key)
    ensures forall k :: 0 <= k < |[key] + IntWords(ns)| ==> NoSpace(([key] + IntWords(ns))[k])
  {
    IntWordsNoSpace(ns);
    var ws := [key] + IntWords(ns);
    forall k | 0 <= k < |ws| ensures NoSpace(ws[k]) {
      if k > 0 {
        assert ws[k] == IntWords(ns)[k - 1];
      }
    }
  }

  lemma WordsNoSpace(c: Command)
    requires WellFormed(c)
    ensures forall k :: 0 <= k < |Words(c)| ==> NoSpace(Words(c)[k])
  {
    match c
    case Move(d, x) =>
      FormatIntNoSpace(x);
      DirectionNoSpace(d);
    case SetSpeed(x) =>
      FormatIntNoSpace(x);
      assert NoSpace("speed");
    case Go(x, y, z, s) =>
      ArgWordsNoSpace("go", [x, y, z, s]);
    case Curve(x1, y1, z1, x2, y2, z2, s) =>
      ArgWordsNoSpace("curve", [x1, y1, z1, x2, y2, z2, s]);
    case SetSticks(lr, fb, ud, y) =>
      ArgWordsNoSpace("rc", [lr, fb, ud, y]);
    case Flip(dir) =>
      assert NoSpace("flip");
    case SetWifi(ssid, pw) =>
      assert NoSpace("wifi");
    case _ =>
      BareNoSpace(c);
  }

  lemma DirectionNoSpace(d: Direction)
    ensures NoSpace(d.Keyword())
  {
  }

  lemma BareNoSpace(c: Command)
    requires Words(c) == [Words(c)[0]] && !c.Flip? && !c.SetWifi?
    ensures NoSpace(Words(c)[0])
  {
    match c
    case Handshake => assert NoSpace("command");
    case TakeOff => assert NoSpace("takeoff");
    case Land => assert NoSpace("land");
    case Emergency => assert NoSpace("emergency");
    case WifiQuery => assert NoSpace("wifi?");
    case SpeedQuery => assert NoSpace("speed?");
    case StartVideo => assert NoSpace("streamon");
    case StopVideo => assert NoSpace("streamoff");
  }

  lemma DirectionKeyword(d: Direction)
    ensures DirectionOf(d.Keyword()) == Some(d)
    ensures d.Keyword() != "speed" && d.Keyword() != "flip" && d.Keyword() != "wifi"
  {
  }

  lemma IntsSingle(x: Int64)
    ensures Ints([FormatInt(x)]) == Some([x])
  {
    AtoiFormat(x);
    assert [FormatInt(x)][1..] == [];
    assert Ints([]) == Some([]);
    assert [x] + [] == [x];
  }

  lemma ParseMove(d: Direction, x: Int64)
    ensures ParseWords(Words(Move(d, x))) == Some(Move(d, x))
  {
    DirectionKeyword(d);
    IntsSingle(x);
    assert Words(Move(d, x))[1..] == [FormatInt(x)];
  }

  lemma ParseSetSpeed(x: Int64)
    ensures ParseWords(Words(SetSpeed(x))) == Some(SetSpeed(x))
  {
    IntsSingle(x);
    assert Words(SetSpeed(x))[1..] == [FormatInt(x)];
  }

  lemma ParseArgs(key: string, ns: seq<Int64>)
    ensures ([key] + IntWords(ns))[1..] == IntWords(ns)
    ensures Ints(([key] + IntWords(ns))[1..]) == Some(ns)
  {
    IntsFormat(ns);
    assert ([key] + IntWords(ns))[1..] == IntWords(ns);
  }

  lemma ParseWordsOf(c: Command)
    ensures ParseWords(Words(c)) == Some(c)
  {
    if c.Move? || c.SetSpeed? || c.Go? || c.Curve? || c.SetSticks? {
      ParseNumericOf(c);
    } else if c.Flip? || c.SetWifi? {
      ParseStrings(c);
    } else {
      ParseBareOf(c);
    }
  }

  lemma ParseNumericOf(c: Command)
    requires c.Move? || c.SetSpeed? || c.Go? || c.Curve? || c.SetSticks?
    ensures ParseWords(Words(c)) == Some(c)
  {
    match c
    case Move(d, x) => ParseMove(d, x);
    case SetSpeed(x) => ParseSetSpeed(x);
    case Go(x, y, z, s) => ParseGo(x, y, z, s);
    case Curve(x1, y1, z1, x2, y2, z2, s) => ParseCurve(x1, y1, z1, x2, y2, z2, s);
    case SetSticks(lr, fb, ud, y) => ParseSticks(lr, fb, ud, y);
  }

  /** A line of a keyword and integer words is read by ParseNumeric. */
  lemma ParseWordsNumeric(ws: seq<string>, ns: seq<Int64>)
    requires |ws| > 1 && Ints(ws[1..]) == Some(ns)
    requires |ws| == 2 ==> ws[0] != "flip"
    requires |ws| == 3 ==> ws[0] != "wifi"
    ensures ParseWords(ws) == ParseNumeric(ws[0], ns)
  {
  }

  lemma ParseGo(x: Int64, y: Int64, z: Int64, s: Int64)
    ensures ParseWords(Words(Go(x, y, z, s))) == Some(Go(x, y, z, s))
  {
    var ns := [x, y, z, s];
    ParseArgs("go", ns);
    ParseWordsNumeric(Words(Go(x, y, z, s)), ns);
    assert ParseNumeric("go", ns) == Some(Go(x, y, z, s));
  }

  lemma ParseCurve(x1: Int64, y1: Int64, z1: Int64, x2: Int64, y2: Int64, z2: Int64, s: Int64)
    ensures ParseWords(Words(Curve(x1, y1, z1, x2, y2, z2, s))) == Some(Curve(x1, y1, z1, x2, y2, z2, s))
  {
    var ns := [x1, y1, z1, x2, y2, z2, s];
    ParseArgs("curve", ns);
    ParseWordsNumeric(Words(Curve(x1, y1, z1, x2, y2, z2, s)), ns);
    assert ParseNumeric("curve", ns) == Some(Curve(x1, y1, z1, x2, y2, z2, s));
  }

  lemma ParseSticks(lr: Int64, fb: Int64, ud: Int64, y: Int64)
    ensures ParseWords(Words(SetSticks(lr, fb, ud, y))) == Some(SetSticks(lr, fb, ud, y))
  {
    var ns := [lr, fb, ud, y];
    ParseArgs("rc", ns);
    ParseWordsNumeric(Words(SetSticks(lr, fb, ud, y)), ns);
    assert ParseNumeric("rc", ns) == Some(SetSticks(lr, fb, ud, y));
  }

  lemma ParseStrings(c: Command)
    requires c.Flip? || c.SetWifi?
    ensures ParseWords(Words(c)) == Some(c)
  {
  }

  lemma ParseBareOf(c: Command)
    requires c.Handshake? || c.TakeOff? || c.Land? || c.Emergency? || c.WifiQuery? || c.SpeedQuery?
      || c.StartVideo? || c.StopVideo?
    ensures ParseWords(Words(c)) == Some(c)
  {
  }

  /** Reading a command line back gives the command that wrote it, so two
      well-formed commands with the same line are the same command. */
  lemma ParseCommandFormat(c: Command)
    requires WellFormed(c)
    ensures ParseCommand(Format(c)) == Some(c)
  {
    WordsNoSpace(c);
    SplitJoin(Words(c));
    ParseWordsOf(c);
  }

  lemma FormatInjective(a: Command, b: Command)
    requires WellFormed(a) && WellFormed(b)
    requires Format(a) == Format(b)
    ensures a == b
  {
    ParseCommandFormat(a);
    ParseCommandFormat(b);
  }

  // ---------------------------------------------------------------------------
  // Replies
  // ---------------------------------------------------------------------------

  /** The errors a command can end with. */
  datatype Error =
    | NotConnected              // ErrNotConnected
    | WriteFailed               // writing the command failed
    | Canceled                  // context.Canceled: the drone was closed
    | DeadlineExceeded          // context.DeadlineExceeded: no reply in time
    | InvalidResponse(reply: string)
    | AtoiFailed(reply: string)
    | ParseFloatFailed(reply: string)

  /** defaultRespHandler: only the reply "ok" is a success; any other reply
      is an invalid response carrying the reply text. */
  function DefaultRespHandler(reply: string): (r: Option<Error>)
    ensures r.None? <==> reply == "ok"
    ensures r.Some? ==> r.value == InvalidResponse(reply)
  {
    if reply != "ok" then Some(InvalidResponse(reply)) else None
  }

  /** What a handler makes of a reply: an error, or success with the events
      it dispatched and the value it stored for its caller. */
  datatype Verdict =
    | Rejected(error: Error)
    | Accepted(events: seq<string>, value: Option<int>)

  /** respHandlerWithEvent(name): the default check, and on success one
      dispatch of the event. */
  function RespHandlerWithEvent(name: string, reply: string): (v: Verdict)
    ensures v.Accepted? <==> DefaultRespHandler(reply).None?
  {
    match DefaultRespHandler(reply)
    case Some(e) => Rejected(e)
    case None => Accepted([name], None)
  }

  /** Wifi's handler: the reply is the SNR as a decimal integer (Atoi). */
  function WifiReply(reply: string): (v: Verdict)
    ensures v.Accepted? ==> v.value.Some? && v.events == []
  {
    match Atoi(reply)
    case Some(n) => Accepted([], Some(n))
    case None => Rejected(AtoiFailed(reply))
  }

  /** Speed's handler: the reply is a decimal number of cm/s, truncated
      toward zero (ParseFloat, then int()). */
  function SpeedReply(reply: string): (v: Verdict)
    ensures v.Accepted? ==> v.value.Some? && v.events == []
  {
    match ParseDecimal(reply)
    case Some(d) => Accepted([], Some(Truncate(d)))
    case None => Rejected(ParseFloatFailed(reply))
  }

  /** The handler of a command run on the reply text. */
  function RunHandler(h: Handler, reply: string): Verdict {
    match h
    case NoHandler => Accepted([], None)
    case Default => (
      match DefaultRespHandler(reply)
      case Some(e) => Rejected(e)
      case None => Accepted([], None))
    case WithEvent(name) => RespHandlerWithEvent(name, reply)
    case WifiSnr => WifiReply(reply)
    case SpeedValue => SpeedReply(reply)
  }

  /** A handler that checks the reply accepts exactly "ok"; the event handler
      dispatches its event exactly then, and nothing otherwise. */
  lemma ReplyOk(name: string, reply: string)
    ensures RunHandler(Default, reply).Accepted? <==> reply == "ok"
    ensures RunHandler(WithEvent(name), reply) ==
      (if reply == "ok" then Accepted([name], None) else Rejected(InvalidResponse(reply)))
  {
  }

  /** The SNR the drone reports is read back exactly. */
  lemma WifiReplyFormat(n: Int64)
    ensures WifiReply(FormatInt(n)) == Accepted([], Some(n))
  {
    AtoiFormat(n);
  }

  /** The speed the drone reports is read back truncated toward zero. */
  lemma SpeedReplyFormat(d: Decimal)
    ensures SpeedReply(FormatDecimal(d)).Accepted?
    ensures var n := SpeedReply(FormatDecimal(d)).value.value;
      if d.mantissa >= 0 then n as real <= d.Value() < (n + 1) as real
      else (n - 1) as real < d.Value() <= n as real
  {
    ParseDecimalFormat(d);
  }

  lemma Hundred()
    ensures NatDigits(100) == "100"
  {
    assert NatDigits(10) == NatDigits(1) + ['0'];
    assert NatDigits(100) == NatDigits(10) + ['0'];
  }

  /** The test's reply "100" to the SNR query reads as 100. */
  lemma WifiReplyExample()
    ensures WifiReply("100") == Accepted([], Some(100))
  {
    Hundred();
    WifiReplyFormat(100);
  }

  lemma HundredPointZero()
    ensures FormatDecimal(Decimal(1000, 1)) == "100.0"
  {
    var d := Decimal(1000, 1);
    assert Pow10(1) == 10;
    assert WholePart(d) == 100;
    Hundred();
    assert PadDigits(0, 1) == PadDigits(0, 0) + ['0'];
    assert FractionText(d) == ".0";
  }

  /** The test's reply "100.0" to the speed query reads as 100. */
  lemma SpeedReplyExample()
    ensures SpeedReply("100.0") == Accepted([], Some(100))
  {
    HundredPointZero();
    ParseDecimalFormat(Decimal(1000, 1));
    assert Pow10(1) == 10;
    assert Truncate(Decimal(1000, 1)) == 100;
  }

  // ---------------------------------------------------------------------------
  // The test's command log
  // ---------------------------------------------------------------------------

  /** The calls the test makes after connecting, in order. */
  const TestCalls: seq<Command> := [
    Handshake, Emergency, TakeOff, Land,
    Move(Up, 1), Move(Down, 1), Move(Left, 1), Move(Right, 1), Move(Forward, 1), Move(Back, 1),
    Move(Clockwise, 1), Move(CounterClockwise, 1), Flip(FlipLeft), Go(1, 2, 3, 4),
    Curve(1, 2, 3, 4, 5, 6, 7), SetSticks(1, 2, 3, 4), SetWifi("1", "2"), SetSpeed(1),
    StartVideo, StopVideo, WifiQuery, SpeedQuery]

  function Lines(cs: seq<Command>): (ls: seq<string>)
    ensures |ls| == |cs|
    ensures forall k :: 0 <= k < |cs| ==> ls[k] == Format(cs[k])
  {
    if cs == [] then [] else [Format(cs[0])] + Lines(cs[1..])
  }
  /** The lines the test's fake drone records, in order. */
  const TestLog: seq<string> := [
    "command", "emergency", "takeoff", "land", "up 1", "down 1",
    "left 1", "right 1", "forward 1", "back 1", "cw 1", "ccw 1",
    "flip l", "go 1 2 3 4", "curve 1 2 3 4 5 6 7", "rc 1 2 3 4", "wifi 1 2", "speed 1",
    "streamon", "streamoff", "wifi?", "speed?"]

  lemma DigitLine(n: nat)
    requires n < 10
    ensures FormatInt(n) == [DigitChar(n)]
  {
  }

  lemma BareLine(c: Command)
    requires c.Handshake? || c.TakeOff? || c.Land? || c.Emergency? || c.WifiQuery? || c.SpeedQuery?
      || c.StartVideo? || c.StopVideo?
    ensures Format(c) == Words(c)[0]
  {
  }

  /** A move by one: its keyword, a space and "1". */
  lemma MoveLine(d: Direction)
    ensures Format(Move(d, 1)) == d.Keyword() + " 1"
  {
    DigitLine(1);
    assert Words(Move(d, 1))[1..] == ["1"];
  }

  lemma SpeedLine()
    ensures Format(SetSpeed(1)) == "speed 1"
  {
    DigitLine(1);
    assert Words(SetSpeed(1))[1..] == ["1"];
  }

  lemma FlipLine()
    ensures Format(Flip(FlipLeft)) == "flip l"
  {
    assert Words(Flip(FlipLeft))[1..] == ["l"];
  }

  lemma WifiLine()
    ensures Format(SetWifi("1", "2")) == "wifi 1 2"
  {
    var ws := Words(SetWifi("1", "2"));
    assert ws[1..] == ["1", "2"] && ws[1..][1..] == ["2"];
    assert Join(ws[1..]) == "1 2";
  }

  lemma ArgsLine(key: string, ws: seq<string>, t: string)
    requires ws != [] && Join(ws) == t
    ensures Join([key] + ws) == key + " " + t
  {
    assert ([key] + ws)[1..] == ws;
  }

  /** The words of the arguments one to four. */
  lemma FourDigits()
    ensures IntWords([1, 2, 3, 4]) == ["1", "2", "3", "4"]
  {
    DigitLine(1); DigitLine(2); DigitLine(3); DigitLine(4);
  }

  /** The words of the arguments one to seven. */
  lemma SevenDigits()
    ensures IntWords([1, 2, 3, 4, 5, 6, 7]) == ["1", "2", "3", "4", "5", "6", "7"]
  {
    DigitLine(1); DigitLine(2); DigitLine(3); DigitLine(4);
    DigitLine(5); DigitLine(6); DigitLine(7);
  }

  lemma JoinFour()
    ensures Join(["1", "2", "3", "4"]) == "1 2 3 4"
  {
    var v := ["1", "2", "3", "4"];
    assert Join(v[3..]) == "4";
    assert v[2..][1..] == v[3..];
    assert Join(v[2..]) == "3 4";
    assert v[1..][1..] == v[2..];
    assert Join(v[1..]) == "2 3 4";
    assert v[0..][1..] == v[1..] && v[0..] == v;
  }

  lemma JoinSeven()
    ensures Join(["1", "2", "3", "4", "5", "6", "7"]) == "1 2 3 4 5 6 7"
  {
    var w := ["1", "2", "3", "4", "5", "6", "7"];
    assert Join(w[6..]) == "7";
    assert w[5..][1..] == w[6..];
    assert Join(w[5..]) == "6 7";
    assert w[4..][1..] == w[5..];
    assert Join(w[4..]) == "5 6 7";
    assert w[3..][1..] == w[4..];
    assert Join(w[3..]) == "4 5 6 7";
    assert w[2..][1..] == w[3..];
    assert Join(w[2..]) == "3 4 5 6 7";
    assert w[1..][1..] == w[2..];
    assert Join(w[1..]) == "2 3 4 5 6 7";
    assert w[0..][1..] == w[1..] && w[0..] == w;
  }

  lemma GoWords()
    ensures Words(Go(1, 2, 3, 4)) == ["go"] + ["1", "2", "3", "4"]
  {
    FourDigits();
  }

  lemma GoJoin()
    ensures Format(Go(1, 2, 3, 4)) == "go" + " " + "1 2 3 4"
  {
    GoWords();
    JoinFour();
    ArgsLine("go", ["1", "2", "3", "4"], "1 2 3 4");
  }

  lemma GoLine()
    ensures Format(Go(1, 2, 3, 4)) == "go 1 2 3 4"
  {
    GoJoin();
    GoSpelling();
  }

  lemma GoSpelling()
    ensures "go" + " " + "1 2 3 4" == "go 1 2 3 4"
  {
  }

  lemma CurveWords()
    ensures Words(Curve(1, 2, 3, 4, 5, 6, 7)) == ["curve"] + ["1", "2", "3", "4", "5", "6", "7"]
  {
    SevenDigits();
  }

  lemma CurveJoin()
    ensures Format(Curve(1, 2, 3, 4, 5, 6, 7)) == "curve" + " " + "1 2 3 4 5 6 7"
  {
    CurveWords();
    JoinSeven();
    ArgsLine("curve", ["1", "2", "3", "4", "5", "6", "7"], "1 2 3 4 5 6 7");
  }

  lemma CurveLine()
    ensures Format(Curve(1, 2, 3, 4, 5, 6, 7)) == "curve 1 2 3 4 5 6 7"
  {
    CurveJoin();
    CurveSpelling();
  }

  lemma CurveSpelling()
    ensures "curve" + " " + "1 2 3 4 5 6 7" == "curve 1 2 3 4 5 6 7"
  {
  }

  lemma SticksWords()
    ensures Words(SetSticks(1, 2, 3, 4)) == ["rc"] + ["1", "2", "3", "4"]
  {
    FourDigits();
  }

  lemma SticksJoin()
    ensures Format(SetSticks(1, 2, 3, 4)) == "rc" + " " + "1 2 3 4"
  {
    SticksWords();
    JoinFour();
    ArgsLine("rc", ["1", "2", "3", "4"], "1 2 3 4");
  }

  lemma SticksLine()
    ensures Format(SetSticks(1, 2, 3, 4)) == "rc 1 2 3 4"
  {
    SticksJoin();
    SticksSpelling();
  }

  lemma SticksSpelling()
    ensures "rc" + " " + "1 2 3 4" == "rc 1 2 3 4"
  {
  }

  lemma TestLineBare(k: nat)
    requires k < 4 || 18 <= k < 22
    ensures Format(TestCalls[k]) == TestLog[k]
  {
    BareLine(TestCalls[k]);
  }

  lemma TestLineMove(k: nat)
    requires 4 <= k < 12
    ensures Format(TestCalls[k]) == TestLog[k]
  {
    MoveLine(TestCalls[k].dir);
    if k == 4 {
      assert TestLog[4] == TestCalls[4].dir.Keyword() + " 1";
    } else if k == 5 {
      assert TestLog[5] == TestCalls[5].dir.Keyword() + " 1";
    } else if k == 6 {
      assert TestLog[6] == TestCalls[6].dir.Keyword() + " 1";
    } else if k == 7 {
      assert TestLog[7] == TestCalls[7].dir.Keyword() + " 1";
    } else if k == 8 {
      assert TestLog[8] == TestCalls[8].dir.Keyword() + " 1";
    } else if k == 9 {
      assert TestLog[9] == TestCalls[9].dir.Keyword() + " 1";
    } else if k == 10 {
      assert TestLog[10] == TestCalls[10].dir.Keyword() + " 1";
    } else {
      assert TestLog[11] == TestCalls[11].dir.Keyword() + " 1";
    }
  }

  lemma TestLineFlip()
    ensures Format(TestCalls[12]) == TestLog[12]
  {
    TestEntryFlip();
    FlipLine();
  }

  lemma TestEntryFlip()
    ensures TestCalls[12] == Flip(FlipLeft) && TestLog[12] == "flip l"
  {
  }

  lemma TestLineGo()
    ensures Format(TestCalls[13]) == TestLog[13]
  {
    TestEntryGo();
    GoLine();
  }

  lemma TestEntryGo()
    ensures TestCalls[13] == Go(1, 2, 3, 4) && TestLog[13] == "go 1 2 3 4"
  {
  }

  lemma TestLineCurve()
    ensures Format(TestCalls[14]) == TestLog[14]
  {
    TestEntryCurve();
    CurveLine();
  }

  lemma TestEntryCurve()
    ensures TestCalls[14] == Curve(1, 2, 3, 4, 5, 6, 7) && TestLog[14] == "curve 1 2 3 4 5 6 7"
  {
  }

  lemma TestLineSticks()
    ensures Format(TestCalls[15]) == TestLog[15]
  {
    TestEntrySticks();
    SticksLine();
  }

  lemma TestEntrySticks()
    ensures TestCalls[15] == SetSticks(1, 2, 3, 4) && TestLog[15] == "rc 1 2 3 4"
  {
  }

  lemma TestLineWifi()
    ensures Format(TestCalls[16]) == TestLog[16]
  {
    TestEntryWifi();
    WifiLine();
  }

  lemma TestEntryWifi()
    ensures TestCalls[16] == SetWifi("1", "2") && TestLog[16] == "wifi 1 2"
  {
  }

  lemma TestLineSpeed()
    ensures Format(TestCalls[17]) == TestLog[17]
  {
    TestEntrySpeed();
    SpeedLine();
  }

  lemma TestEntrySpeed()
    ensures TestCalls[17] == SetSpeed(1) && TestLog[17] == "speed 1"
  {
  }

  lemma TestLinesArgs()
    ensures forall k :: 12 <= k < 18 ==> Format(TestCalls[k]) == TestLog[k]
  {
    forall k | 12 <= k < 18 ensures Format(TestCalls[k]) == TestLog[k] {
      if k == 12 {
        TestLineFlip();
      } else if k == 13 {
        TestLineGo();
      } else if k == 14 {
        TestLineCurve();
      } else if k == 15 {
        TestLineSticks();
      } else if k == 16 {
        TestLineWifi();
      } else {
        TestLineSpeed();
      }
    }
  }

  lemma TestLinesOthers()
    ensures forall k :: 0 <= k < 12 || 18 <= k < 22 ==> Format(TestCalls[k]) == TestLog[k]
  {
    forall k | 0 <= k < 12 || 18 <= k < 22 ensures Format(TestCalls[k]) == TestLog[k] {
      if k < 4 || k >= 18 {
        TestLineBare(k);
      } else {
        TestLineMove(k);
      }
    }
  }

  /** The test's calls write exactly the lines its fake drone records. */
  lemma TestCallLines()
    ensures Lines(TestCalls) == TestLog
  {
    TestLinesArgs();
    TestLinesOthers();
  }
}
