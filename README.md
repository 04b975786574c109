# A verified model of the astitello Tello client

astitello is a Go client for the Ryze Tello drone. It talks to the drone over
three UDP ports.

- **Command port.** The client writes text commands (`takeoff`, `up 20`,
  `wifi?`) and reads back one short reply per command.
- **State port.** The drone pushes a telemetry line of sixteen `key:value;`
  fields that the client parses into a `State` record.
- **Video port.** The drone pushes an encoded video stream cut into
  datagrams, which the client reassembles into frames.

This project models the client's core and proves properties of the model:

- the command queue with its priority rule;
- the sending of one command;
- the three read loops;
- Start and Close;
- the reply handlers;
- the command formatters;
- the telemetry parser.

Modules, one per file:

- `Text` (text.dfy): byte and string helpers the client gets from Go's
  standard library.
  - `bytes.TrimSpace` and the `string(b)` conversion.
  - Decimal integers as printed by `%d` and read by `strconv.Atoi` and the
    `%d` verb of `fmt.Sscanf`.
  - Decimal fractions as read by `strconv.ParseFloat` and `%f`. These are
    kept exact, as a mantissa with a decimal scale.
  - The truncation `int(f)`.
- `Telemetry` (state.go): the `State` record and its parts, and `newState`.
  - `fmt.Sscanf` is modelled for this one format. The format is a list of
    literal characters and operands.
  - A scan fails at the first mismatch, so the item-count branch can never
    fire.
  - A formatter (`FormatState`) writes a record out as a telemetry line. It
    is the partner for the round trip.
  - The test's telemetry line is parsed into the test's record.
- `Commands` (drone.go):
  - every public command method as a `Command` value;
  - its text (`Format`): `fmt.Sprintf` with `%d` and `%s`;
  - its `cmd` record (`ToCmd`): canceller flag, handler and timeout;
  - the reply handlers.
  - A parser of command lines (`ParseCommand`) is the inverse partner of
    the formatter.
  - The test's expected command log is derived from the test's calls.
- `Video` (drone.go, readVideo): reassembly as a fold over payloads.
  - A payload of exactly 1460 bytes continues a frame. Any other length ends
    it.
  - Conservation of bytes, frame count, frame boundaries and batching are
    proved.
- `Drone` (drone.go): the `Drone` object as a class, with one field per part
  of the Go struct's state the core uses.
  - `sendCmd` is split into the phases the Go code goes through, proved
    against a pure outcome function `Send`:
    - priority, then entry into the in-flight set;
    - the context check, then the write, then the wait;
    - the handler, then the deferred removal.
  - `readResponses`, `readState` and `readVideo` are loops proved against
    fold functions over the datagrams received.
  - `Start` and `Close` are guarded by their once-flags.
  - The environment is passed in as parameters:
    - which socket steps succeed;
    - which datagrams arrive while a command waits;
    - how long the wait took;
    - whether and when Close ran meanwhile.

## Model

| member | source | states |
|---|---|---|
| Text.TrimSpace | drone.go:332 | the result neither starts nor ends with white space, is no longer than the input, and is empty for all-space input |
| Text.TrimSpaceUnpadded | drone.go:332 | trimming changes nothing in a text that neither starts nor ends with white space |
| Text.ScanIntFormat | state.go:46 | `%d` reads back exactly the 64-bit integer printed with `%d`, whatever non-digit follows |
| Text.AtoiFormat | drone.go:774 | Atoi of a printed 64-bit integer gives the integer back |
| Text.Atoi | drone.go:774 | Atoi succeeds only on an optional sign followed by digits only |
| Text.ScanDecimalFormat | state.go:46 | `%f` reads back exactly the decimal printed, whatever follows that is neither a digit nor a point |
| Text.ParseDecimalFormat | drone.go:811 | ParseFloat of a printed decimal gives the same decimal back |
| Text.Truncate | drone.go:817 | `int(f)` truncates toward zero: the result is within one of the value, on the side of zero |
| Telemetry.Scan | state.go:46 | the scan stores at most one item per operand, and all of them when it does not fail |
| Telemetry.ScanKinds | state.go:46 | item k has the kind of operand k (an integer for `%d`, a decimal for `%f`) |
| Telemetry.ScanOperand | state.go:46 | an operand scan consumes at least one character and yields an item of the operand's kind |
| Telemetry.ToState | state.go:10-42 | the sixteen items are stored in the record's fields in the format's order |
| Telemetry.NewState | state.go:44-54 | newState succeeds iff the scan does not fail, and then the record's fields are the scanned items |
| Telemetry.NewStateError | state.go:49-51 | the only error newState returns is the scan error: the item-count check never fires |
| Telemetry.NewStateFormat | state.go:44-54 | round trip: a record written as a telemetry line, with anything after it, parses back to the same record |
| Telemetry.StateItemsInjective | state.go:10-42 | distinct records have distinct item lists, so the field mapping loses nothing |
| Telemetry.NewStateExample | state.go:44-54 | the test's telemetry line parses to the test's record (barometer 19.1, z acceleration 23.1) |
| Telemetry.NewStateMalformed | state.go:46-48 | the empty line and the line "roll:9;" are scan errors |
| Telemetry.ScanLiteralMismatch | state.go:46-48 | a literal that does not match the next character fails the scan |
| Telemetry.ScanOperandMismatch | state.go:46-48 | an operand whose text does not scan fails the scan |
| Commands.ToCmd | drone.go:491-826 | each public method's record: the text `Format` writes; a canceller exactly for Emergency and Land; no handler exactly for Emergency and SetSticks; the take.off and land event handlers for TakeOff and Land, the Atoi handler for the SNR query, the ParseFloat handler for the speed query, the default handler for the rest; one minute for moves, go and curve, twenty seconds for take-off, landing and flips, the default for the rest |
| Commands.CancellerCommands | drone.go:534-575 | only Emergency and Land are cancellers |
| Commands.FireAndForgetCommands | drone.go:534-751 | only Emergency and SetSticks have no reply handler |
| Commands.CommandTimeouts | drone.go:491-826 | moves wait one minute, take-off, landing and flips twenty seconds, the others the default five |
| Commands.ParseCommandFormat | drone.go:491-826 | round trip: a command whose string arguments hold no space is parsed back from its line |
| Commands.FormatInjective | drone.go:491-826 | two such commands that write the same line are the same command |
| Commands.DefaultRespHandler | drone.go:345-352 | the handler succeeds iff the reply is "ok"; else it fails with the reply text |
| Commands.RespHandlerWithEvent | drone.go:354-365 | the event handler succeeds iff the default check does |
| Commands.ReplyOk | drone.go:345-365 | the event handler dispatches its one event exactly on "ok", and fails with the reply otherwise |
| Commands.WifiReply | drone.go:767-787 | on success the SNR handler stores a value and dispatches nothing |
| Commands.WifiReplyFormat | drone.go:767-787 | an SNR printed as an integer is read back exactly |
| Commands.WifiReplyExample | drone.go:767-787 | the test's reply "100" reads as SNR 100 |
| Commands.SpeedReply | drone.go:803-826 | on success the speed handler stores a value and dispatches nothing |
| Commands.SpeedReplyFormat | drone.go:803-826 | a printed decimal speed is read back and truncated toward zero |
| Commands.SpeedReplyExample | drone.go:803-826 | the test's reply "100.0" reads as speed 100 |
| Commands.TestCallLines | drone_test.go:240-242 | the test's calls write exactly the test's expected command log |
| Video.Received | drone.go:246-247 | a read keeps the first 2048 bytes of a datagram, all of it when shorter |
| Video.Conservation | drone.go:236-273 | the published frames followed by the buffer are the payloads laid end to end |
| Video.FrameCount | drone.go:255-272 | one frame is published per payload whose length is not 1460 |
| Video.FramesGrow | drone.go:236-273 | published frames are never changed, later payloads only add frames |
| Video.FrameBoundary | drone.go:255-272 | full payloads closed by one that is not full publish exactly one frame: the buffer, those payloads and the last one; the buffer is then empty |
| Video.NothingPublished | drone.go:255-262 | while only 1460-byte payloads arrive, nothing is published and they all stay in the buffer |
| Video.RunAppend | drone.go:236-273 | reading payloads in two batches is reading them in one |
| Video.PacketFrame | drone.go:255-272 | the test's six-byte datagram "packet" comes out as the frame "packet" |
| Drone.ContextError | drone.go:451-480 | the command's context fails with DeadlineExceeded exactly when its timeout passed first, with Canceled exactly when the drone was closed first, and otherwise not |
| Drone.Send | drone.go:398-489 | outcome of sendCmd: NotConnected iff there is no connection; a write iff connected, the command has priority or the drone is not closed, and the write succeeds; nothing after the write without a handler; otherwise the context error, else exactly the handler's verdict: its error on rejection, its events and stored value on success |
| Drone.TakeOffOutcome | drone.go:354-365 | a take-off answered "ok" succeeds and dispatches take.off |
| Drone.RefusedLanding | drone.go:345-365 | a landing answered anything but "ok" fails with that reply and dispatches nothing |
| Drone.WifiOutcome | drone.go:767-787 | Wifi() answered "100" returns SNR 100 |
| Drone.SpeedOutcome | drone.go:803-826 | Speed() answered "100.0" returns speed 100 |
| Drone.ExpiredWait | drone.go:451-480 | a wait that outlives the timeout ends with DeadlineExceeded, or Canceled when Close came before the timeout |
| Drone.Drone.constructor | drone.go:64-77 | a new drone has no connection, no command in flight, a zero state and both once-flags unused |
| Drone.Drone.PriorityCmd | drone.go:374-396 | true iff the command is a canceller, no canceller is in flight, and it is not a landing during a take-off |
| Drone.PriorityCommands | drone.go:374-396 | only Emergency and Land ever jump the queue, and with nothing in flight they always do |
| Drone.TakeOffInFlight | drone.go:387-391 | a take-off in flight keeps a landing queued but not an emergency stop; a canceller in flight keeps both queued |
| Drone.Drone.Enqueue | drone.go:405-413 | priority is decided on the set before the command enters it, under an identity not present before |
| Drone.Drone.Transmit | drone.go:421-489 | the write, the wait and the handler as `Send` says, with the in-flight set unchanged throughout |
| Drone.Drone.Dequeue | drone.go:414-419 | the deferred removal takes out the command's own entry and nothing else |
| Drone.Drone.SendCmd | drone.go:398-489 | as `Send` says: the written log gains the command exactly when it is written, the events gain the handler's dispatches, the reply slot takes the replies received, its own entry is in flight during the call and gone after |
| Drone.Drone.ReadResponses | drone.go:314-341 | the reply slot holds the trimmed text of the last datagram received |
| Drone.LastReplyIs | drone.go:331-339 | the reply slot holds the last datagram's text whatever failed reads follow it |
| Drone.LastReplyKept | drone.go:322-329 | failed reads leave the reply slot as it was |
| Drone.Drone.ReadState | drone.go:176-208 | the state is the last snapshot that parsed, unchanged if none did, and each parsed snapshot is dispatched once, in order |
| Drone.CollectSnapshots | drone.go:176-208 | the loop of readState, proved against the fold of parsed snapshots |
| Drone.SnapshotsAppend | drone.go:176-208 | the snapshots of two batches of reads are those of the batches |
| Drone.ExampleDatagram | drone.go:184-200 | the test's telemetry datagram yields exactly the test's record |
| Drone.Drone.ReadVideo | drone.go:236-273 | the frames dispatched are the frames of the reassembly of the payloads received, in order; what is left in the buffer is its pending part |
| Drone.CollectFrames | drone.go:236-273 | the loop of readVideo, proved against the reassembly fold: the frames it dispatches and the bytes it leaves buffered |
| Drone.PayloadsAppend | drone.go:236-273 | the payloads of two batches of reads are those of the batches |
| Drone.PacketEvent | drone.go:255-272 | the test's "packet" datagram is dispatched as one video frame |
| Drone.Drone.Close | drone.go:91-121 | once per Start: cancels the context, re-arms Start, empties the in-flight set, closes the connection; a second Close changes nothing |
| Drone.Drone.Start | drone.go:123-155 | once per Close: a fresh context, Close re-armed, then state, video and command setup in order with the first failure returned and the reply slot untouched; a failed dial leaves no connection; on success the handshake through sendCmd, its reply in the slot |
| Drone.ShortTimeout | drone_test.go:250-260 | with a one-millisecond timeout and no reply, the handshake fails with DeadlineExceeded |
| Drone.LandDuringTakeOff | drone.go:387-391 | with a take-off in flight, a landing gets no priority and an emergency stop does |
| Drone.AfterClose | drone.go:91-121 | after Close a queued command fails with Canceled unwritten, an emergency stop fails to write, and Start works again |

## Left out

- Concurrency. The goroutines, the mutexes, the condition variable and the
  timer goroutine that signals an expired wait are not modelled. Each
  operation runs as one sequential step.
- Close during a wait. A Close that happens while a command waits shows in
  the waiting command only as the Canceled error (`Wait.closedAt`). Close's
  own effects come from the separate `Close` call. The two orders of Close's
  effects and the rest of sendCmd give the same state: the removal from an
  emptied set removes nothing.
- The reply-slot race. A reply that arrives after a command timed out, or
  one meant for another command, is not told apart. The model takes the
  datagrams received during a wait as given.
- Sockets. ResolveUDPAddr, ListenUDP, DialUDP, Read, Write and the closing
  of the state and video connections are replaced by parameters:
  - `Setup` for the listens and the dial;
  - `writeOk` for the write;
  - a `Read` list per loop, each read either a datagram or a failure.
- The read loops run over the reads that happen before Close. The
  `ctx.Err()` check that ends each loop is not modelled.
- The eventer. Dispatches are recorded in the `events` list in order:
  - `StateEvent`, with its snapshot, as `StateUpdate`;
  - `VideoPacketEvent`, with its frame, as `VideoFrame`;
  - take-off and land as `Named`.
- Handler registration (`On`), StateEventHandler, VideoPacketEventHandler,
  and Start and stop/reset of the eventer are not modelled.
- State() (the locked copy of the snapshot) is the `state` field.
- Logging (astilog) is not modelled. Nor is error wrapping with its messages:
  errors are datatype values.
- Floating point. `%f` and ParseFloat are modelled on exact decimals: an
  optional sign, digits, and an optional point and digits. Exponents, hex
  floats, Inf, NaN and underscores are not accepted. The IEEE rounding of
  the parsed value is left out. `int(f)` truncates the exact value.
- Text.TrimSpace: the contract does not say that only leading and trailing
  white space is cut away. The definition cuts exactly that.
- Telemetry.NewState: white space other than ASCII space, tab, newline,
  vertical tab, form feed and carriage return is left out, before operands
  as in the trimming.
- Commands.ParseCommandFormat: the round trip is stated for commands whose
  string arguments (flip direction, SSID, password) contain no space.
  Sprintf writes such arguments as they are, so a line with an extra space
  inside one argument cannot be parsed back.
- The value Wifi and Speed return alongside an error is not modelled. The
  model returns no value with an error.
- The integer width of Go's `int` in the formatters is 64 bits; arguments
  are `Int64`.
- DefaultTimeout: Go's `defaultTimeout` is a package variable that callers
  may change (the client's test sets it to one millisecond). The model makes
  it the constant five seconds that `ToCmd` uses. A different setting is
  modelled only by building the record by hand, as `ShortTimeout` does.
- The example program (example/main.go) is not part of this model.

## Notes on the code

- End of frame. readVideo ends a frame on every payload whose length is not
  exactly 1460 (drone.go:260). A longer payload ends the frame too, not only
  a shorter one. The model follows the code.
- Start after a failure. A failed Start keeps its once-flag used: a second
  Start does nothing until Close re-arms it (drone.go:126 and 100). The model
  follows the code.
- Close and the connection. Close closes the command connection but leaves
  it set (drone.go:112-114). Commands sent after Close therefore do not get
  ErrNotConnected:
  - a queued command fails with Canceled;
  - a priority command fails on the write.
- A failed dial. It stores the nil connection (drone.go:298). After a failed
  dial, commands get ErrNotConnected even if an earlier Start had connected.
- Unreachable branch. newState's item-count error cannot occur: Sscanf
  returns an error whenever it stores fewer than all sixteen operands.
  Its message also says 10 where the format has 16 (state.go:50).
- The test file. It calls Connect and Disconnect, which the client does not
  define (its methods are Start and Close). Its speed check compares the SNR
  variable instead of the speed (drone_test.go:235).
