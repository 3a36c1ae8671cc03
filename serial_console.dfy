/** The RS232 command line: the receive interrupt collects bytes into a
    32-byte buffer and, on a carriage return, compares the line against the
    four report commands; the main loop then prints at most one pending
    report per pass. The report text itself is not modelled. */
module SerialConsole {
  import opened BpsTypes

  /** `char command[32]` and the bytes the editor treats specially. */
  const BUFFER_SIZE: int := 32
  const CR: char := 13 as char
  const DEL: char := 127 as char
  const NUL: char := 0 as char

  /** The four commands, each stored in a zero-filled `char[32]`. */
  datatype Report = Temps | Volts | Current | BattState

  function Command(r: Report): (s: string)
    ensures 0 < |s| < BUFFER_SIZE && s[|s| - 1] == CR
    ensures forall i :: 0 <= i < |s| - 1 ==> s[i] != CR && s[i] != DEL
  {
    match r
    case Temps => "battery temps\r"
    case Volts => "battery volts\r"
    case Current => "battery current\r"
    case BattState => "battery state\r"
  }

  /** `strcmp(literal, buffer) == 0`: the literal's characters followed by
      the terminating NUL (the comparison stops there). */
  predicate Matches(buffer: seq<char>, literal: string)
    requires |literal| < |buffer|
  {
    buffer[..|literal|] == literal && buffer[|literal|] == NUL
  }

  /** No line matches two commands: they differ in their ninth character. */
  lemma CommandsExclusive(buffer: seq<char>, r: Report, q: Report)
    requires |buffer| == BUFFER_SIZE && r != q
    ensures !(Matches(buffer, Command(r)) && Matches(buffer, Command(q)))
  {
  }

  // ---------------------------------------------------------------------------
  // The receive interrupt
  // ---------------------------------------------------------------------------

  /** `batt_temp_status`, `batt_volt_status`, `batt_current_status`, `batt_state_status`. */
  datatype Flags = Flags(temps: bool, volts: bool, current: bool, state: bool)

  function Flag(f: Flags, r: Report): bool
  {
    match r
    case Temps => f.temps
    case Volts => f.volts
    case Current => f.current
    case BattState => f.state
  }

  const NO_FLAGS: Flags := Flags(false, false, false, false)

  /** The buffer, `rs232_count` and the report flags. */
  datatype Console = Console(buffer: seq<char>, count: UInt8, flags: Flags)

  /** The `strcmp` chain on a completed line: the first command the line
      matches sets its flag, leaving the others; no match clears all four. */
  function Dispatch(line: seq<char>, f: Flags): Flags
    requires |line| == BUFFER_SIZE
  {
    if Matches(line, Command(Temps)) then f.(temps := true)
    else if Matches(line, Command(Volts)) then f.(volts := true)
    else if Matches(line, Command(Current)) then f.(current := true)
    else if Matches(line, Command(BattState)) then f.(state := true)
    else NO_FLAGS
  }

  /** A line matching command `r` raises exactly that flag and leaves the
      others; a line matching none clears every flag. */
  lemma DispatchSelects(line: seq<char>, f: Flags)
    requires |line| == BUFFER_SIZE
    ensures forall r :: Matches(line, Command(r)) ==>
              Flag(Dispatch(line, f), r) && forall q :: q != r ==> Flag(Dispatch(line, f), q) == Flag(f, q)
    ensures (forall r :: !Matches(line, Command(r))) ==> Dispatch(line, f) == NO_FLAGS
  {
    forall r, q | Matches(line, Command(r)) && q != r
      ensures !Matches(line, Command(q))
    {
      CommandsExclusive(line, r, q);
    }
  }

  /** The `for (i = 0; i < 31; i++) command[i] = 0;` loop: the last byte is left. */
  function ClearLine(line: seq<char>): (r: seq<char>)
    requires |line| == BUFFER_SIZE
    ensures |r| == BUFFER_SIZE && r[BUFFER_SIZE - 1] == line[BUFFER_SIZE - 1]
    ensures forall i :: 0 <= i < BUFFER_SIZE - 1 ==> r[i] == NUL
  {
    seq(BUFFER_SIZE - 1, _ => NUL) + [line[BUFFER_SIZE - 1]]
  }

  /** One received byte, stored at `command[rs232_count]`: a carriage return
      resets the count, dispatches the line and clears it; DEL counts down
      and any other byte counts up, both modulo 256 (`unsigned char`). */
  function Receive(c: Console, ch: char): (r: Console)
    requires |c.buffer| == BUFFER_SIZE && c.count < BUFFER_SIZE
    ensures |r.buffer| == BUFFER_SIZE
  {
    var line := c.buffer[c.count := ch];
    if ch == CR then Console(ClearLine(line), 0, Dispatch(line, c.flags))
    else if ch != DEL then Console(line, (c.count + 1) % 256, c.flags)
    else Console(line, (c.count - 1) % 256, c.flags)
  }

  /** A run of received bytes; None once a byte would be stored at an index
      outside the 32-byte buffer. */
  function Feed(c: Console, input: seq<char>): (r: Option<Console>)
    requires |c.buffer| == BUFFER_SIZE
    ensures r.Some? ==> |r.value.buffer| == BUFFER_SIZE
    decreases |input|
  {
    if |input| == 0 then Some(c)
    else if c.count >= BUFFER_SIZE then None
    else Feed(Receive(c, input[0]), input[1..])
  }

  /** Feeding one more byte after a run. */
  lemma {:induction false} FeedSnoc(c: Console, input: seq<char>, ch: char)
    requires |c.buffer| == BUFFER_SIZE
    ensures Feed(c, input + [ch]) ==
      match Feed(c, input)
      case None => None
      case Some(d) => if d.count >= BUFFER_SIZE then None else Some(Receive(d, ch))
    decreases |input|
  {
    if |input| == 0 {
      assert input + [ch] == [ch];
    } else if c.count < BUFFER_SIZE {
      assert (input + [ch])[1..] == input[1..] + [ch];
      FeedSnoc(Receive(c, input[0]), input[1..], ch);
    }
  }

  /** Ordinary bytes are stored one after another from the current count. */
  lemma {:induction false} FeedPlain(c: Console, text: seq<char>)
    requires |c.buffer| == BUFFER_SIZE && c.count + |text| <= BUFFER_SIZE
    requires forall i :: 0 <= i < |text| ==> text[i] != CR && text[i] != DEL
    ensures Feed(c, text) ==
      Some(Console(c.buffer[..c.count] + text + c.buffer[c.count + |text|..], c.count + |text|, c.flags))
    decreases |text|
  {
    if |text| == 0 {
      assert c.buffer[..c.count] + text + c.buffer[c.count + |text|..] == c.buffer;
    } else {
      var d := Receive(c, text[0]);
      assert d == Console(c.buffer[c.count := text[0]], c.count + 1, c.flags);
      FeedPlain(d, text[1..]);
      assert d.buffer[..d.count] + text[1..] == c.buffer[..c.count] + text;
      assert d.buffer[d.count + |text[1..]|..] == c.buffer[c.count + |text|..];
    }
  }

  /** A line typed from the start of the buffer and ended by a carriage
      return is dispatched with the typed bytes in place and the byte after
      them as left in the buffer; the count returns to 0. */
  lemma {:induction false} TypedLineDispatches(c: Console, cmd: string)
    requires |c.buffer| == BUFFER_SIZE && c.count == 0
    requires 0 < |cmd| < BUFFER_SIZE && cmd[|cmd| - 1] == CR
    requires forall i :: 0 <= i < |cmd| - 1 ==> cmd[i] != CR && cmd[i] != DEL
    ensures Feed(c, cmd).Some?
    ensures var line := cmd + c.buffer[|cmd|..];
            Feed(c, cmd) == Some(Console(ClearLine(line), 0, Dispatch(line, c.flags)))
  {
    var text := cmd[..|cmd| - 1];
    assert cmd == text + [CR];
    FeedPlain(c, text);
    FeedSnoc(c, text, CR);
    var d := Console(c.buffer[..0] + text + c.buffer[|text|..], |text|, c.flags);
    assert d.buffer[|text| := CR] == cmd + c.buffer[|cmd|..];
  }

  /** Typing a command at the start of a cleared line raises its report flag
      and leaves the other three, with the count back at 0. */
  lemma TypedCommandSelectsReport(c: Console, r: Report)
    requires |c.buffer| == BUFFER_SIZE && c.count == 0 && c.buffer[|Command(r)|] == NUL
    ensures Feed(c, Command(r)).Some?
    ensures var d := Feed(c, Command(r)).value;
            && d.count == 0 && Flag(d.flags, r)
            && forall q :: q != r ==> Flag(d.flags, q) == Flag(c.flags, q)
  {
    var cmd := Command(r);
    TypedLineDispatches(c, cmd);
    var line := cmd + c.buffer[|cmd|..];
    assert line[..|cmd|] == cmd;
    assert Matches(line, cmd);
    DispatchSelects(line, c.flags);
  }

  /** DEL on an empty line wraps the count to 255, so the next byte is
      stored outside the buffer. */
  lemma DeleteOnEmptyLineOverruns(c: Console, ch: char)
    requires |c.buffer| == BUFFER_SIZE && c.count == 0
    ensures Receive(c, DEL).count == 255
    ensures Feed(c, [DEL, ch]) == None
  {
    assert [DEL, ch][1..] == [ch];
  }

  /** A line of 32 ordinary bytes without a carriage return leaves the count
      at 32, so the 33rd byte is stored outside the buffer. */
  lemma LongLineOverruns(c: Console, text: seq<char>, ch: char)
    requires |c.buffer| == BUFFER_SIZE && c.count == 0 && |text| == BUFFER_SIZE
    requires forall i :: 0 <= i < |text| ==> text[i] != CR && text[i] != DEL
    ensures Feed(c, text + [ch]) == None
  {
    FeedPlain(c, text);
    FeedSnoc(c, text, ch);
  }

  // ---------------------------------------------------------------------------
  // The report block of the main loop
  // ---------------------------------------------------------------------------

  /** The report printed on one pass, if any, and the flags left pending. */
  datatype Taken = Taken(report: Option<Report>, flags: Flags)

  /** The `if / else if` chain: the first pending report in the order temps,
      volts, current, state is printed and its flag cleared. */
  function TakeReport(f: Flags): (r: Taken)
    ensures r.report.None? <==> f == NO_FLAGS
    ensures r.report.None? ==> r.flags == f
    ensures r.report.Some? ==> Flag(f, r.report.value) && !Flag(r.flags, r.report.value)
    ensures r.report.Some? ==> forall q :: q != r.report.value ==> Flag(r.flags, q) == Flag(f, q)
  {
    if f.temps then Taken(Some(Temps), f.(temps := false))
    else if f.volts then Taken(Some(Volts), f.(volts := false))
    else if f.current then Taken(Some(Current), f.(current := false))
    else if f.state then Taken(Some(BattState), f.(state := false))
    else Taken(None, f)
  }

  /** A report is printed only when no report before it in the chain is pending. */
  lemma TakeReportPriority(f: Flags, r: Report, q: Report)
    requires TakeReport(f).report == Some(r) && Flag(f, q)
    ensures Order(r) <= Order(q)
  {
  }

  function Order(r: Report): nat
  {
    match r
    case Temps => 0
    case Volts => 1
    case Current => 2
    case BattState => 3
  }

  /** The number the "battery state" report prints: `bpsMODE + 1`. */
  function StateNumber(m: Mode): (n: nat)
    ensures 1 <= n <= 9
    ensures n == 1 <==> m == Initialize
    ensures n == 9 <==> m == ErrorMode
  {
    Ordinal(m) + 1
  }

  // ---------------------------------------------------------------------------
  // The interrupt handler and the report block as they run
  // ---------------------------------------------------------------------------

  class CommandLine {
    /** `command[32]`. */
    const command: array<char>
    /** `rs232_count`. */
    var count: UInt8
    var tempsPending: bool
    var voltsPending: bool
    var currentPending: bool
    var statePending: bool

    function Snapshot(): Console
      reads this, command
    {
      Console(command[..], count, Flags(tempsPending, voltsPending, currentPending, statePending))
    }

    /** The zero-initialised globals. */
    constructor ()
      ensures command.Length == BUFFER_SIZE && fresh(command)
      ensures Snapshot() == Console(seq(BUFFER_SIZE, _ => NUL), 0, NO_FLAGS)
    {
      command := new char[BUFFER_SIZE](_ => NUL);
      count := 0;
      tempsPending, voltsPending, currentPending, statePending := false, false, false, false;
    }

    /** `USCI_A3_ISR`; the store `command[rs232_count]` needs the count
        inside the buffer. */
    method ReceiveByte(ch: char)
      requires command.Length == BUFFER_SIZE && count < BUFFER_SIZE
      modifies this, command
      ensures Snapshot() == Receive(old(Snapshot()), ch)
    {
      command[count] := ch;
      if ch == CR {
        count := 0;
        CompareLine();
        ClearCommand();
      } else if ch != DEL {
        count := (count + 1) % 256;
      } else {
        count := (count - 1) % 256;
      }
    }

    /** The `strcmp` chain run on a completed line. */
    method CompareLine()
      requires command.Length == BUFFER_SIZE
      modifies this
      ensures count == old(count)
      ensures Snapshot().flags == Dispatch(command[..], old(Snapshot()).flags)
    {
      if Matches(command[..], Command(Temps)) {
        tempsPending := true;
      } else if Matches(command[..], Command(Volts)) {
        voltsPending := true;
      } else if Matches(command[..], Command(Current)) {
        currentPending := true;
      } else if Matches(command[..], Command(BattState)) {
        statePending := true;
      } else {
        tempsPending, voltsPending, currentPending, statePending := false, false, false, false;
      }
    }

    /** Zeroes the first 31 bytes of the buffer. */
    method ClearCommand()
      requires command.Length == BUFFER_SIZE
      modifies command
      ensures command[..] == ClearLine(old(command[..]))
    {
      var i := 0;
      while i < BUFFER_SIZE - 1
        invariant 0 <= i <= BUFFER_SIZE - 1
        invariant forall j :: 0 <= j < i ==> command[j] == NUL
        invariant forall j :: i <= j < BUFFER_SIZE ==> command[j] == old(command[j])
      {
        command[i] := NUL;
        i := i + 1;
      }
    }

    /** The report block: which report this pass prints, if any. */
    method PendingReport() returns (r: Option<Report>)
      modifies this
      ensures Taken(r, Snapshot().flags) == TakeReport(old(Snapshot()).flags)
      ensures Snapshot().buffer == old(Snapshot()).buffer && count == old(count)
    {
      if tempsPending {
        tempsPending := false;
        r := Some(Temps);
      } else if voltsPending {
        voltsPending := false;
        r := Some(Volts);
      } else if currentPending {
        currentPending := false;
        r := Some(Current);
      } else if statePending {
        statePending := false;
        r := Some(BattState);
      } else {
        r := None;
      }
    }
  }
}
