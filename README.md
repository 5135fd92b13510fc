# ANDI-SERVO LM629 chip protocol, in Dafny

The ANDI-SERVO board carries two National LM629 motion-control chips. Each
chip ("channel") is reached through a command port and a data port at fixed
offsets from the board's base address. The driver's chip layer sends
opcodes to the command port and parameter bytes to the data port. Before
each group of data bytes it polls the chip's busy bit (`check_busy_bit`).
If the chip stays busy, the routine gives up with `-EBUSY` (the
`CHECK_BUSY` macro).

This project models that layer: the header constants, the busy-bit
handshake, soft and hard reset, loading and committing PID filters and
trajectories, reading status, signals and position back, and the board
bring-up sequence `init_board`.

## How it is modelled

- **Port I/O.** `outb`, `inb` and `mdelay` are methods of `Bus.Ports`. Each
  call appends an event (`Write`, `Read`, `Delay`) to a trace. The chip's
  answers come from a finite list of responses. Once that list is used up,
  a read returns 0xFF, as an undriven bus does.
- **Scripts.** The bus traffic each routine intends is a list of actions
  (`Out`, `In`, `Pause`, `CheckBusy`), for example
  `Commands.LoadFilterScript`. `Protocol.Exec` runs a script against the
  responses. It stops at the first failing `CheckBusy` and returns
  `-EBUSY`, which is exactly what `CHECK_BUSY` does.
- **Routines.** Each routine is an imperative method of `Servo.Driver`. It
  keeps the file-scope `command` and `data` port numbers as fields and
  performs the I/O one byte at a time. Each method is proved to leave
  exactly the trace, remaining responses and return value that `Exec` of
  its script gives. Facts about the scripts (which bytes reach which port,
  in what order, and that every data pair follows a check) are then
  lemmas about pure functions.
- **Records.** The records of `include/andi.h` are classes in `Device`:
  `Filter`, `Trajectory`, `Channel` (which points at a current and a
  pending record of each kind) and `Board`. Because they are objects,
  the aliasing that a commit creates is visible in the model.
- **Channel structs.** `Servo.Snapshot` reads both `struct LM629`s of
  the board, and whether `Channel0` and `Channel1` are one struct, as a
  `ChannelEffects.Slots` value (`effects.dfy`). `ChannelEffects.Effect`
  is the change one call of load_filter, update_filter, load_trajectory,
  start_trajectory or hard_reset makes to those structs, given whether it
  returned 0. `ChannelEffects.Effects` is a run of calls, up to and
  including the first that fails. Every driver routine and every
  composite of init_board ensures that the snapshot afterwards is the
  `Effect` or `Effects` of its calls applied to the snapshot before.
- **hard_reset.** `hard_reset` calls itself when the chip reports a wrong
  status. It ignores what that call returns and carries on. Its meaning is
  the function `Startup.HardResetRun`, which returns `Diverges` when a
  retry would not consume any response. `Servo.Driver.HardReset` requires
  a device for which the routine returns. The retry is the same recursion
  as in C, with termination measured by the number of responses left.

## Behaviour kept as written

The code's own behaviour is modelled even where it differs from the
code's own comments (such as check_busy_bit's header) or from what the
LM629 expects:

- `load_filter` sends `(dterm - 1) && 0x00FF`, a C logical and
  (`src/andi_servo.c:220`). The byte is therefore 0 when dterm is 1 and 1
  otherwise. It is not the low byte of dterm - 1.
- `load_trajectory` opens with `LFIL` (0x1e), not with the trajectory
  opcode `LTRJ` (0x1f) (`src/andi_servo.c:337`).
- `load_filter` and `load_trajectory` clear `filter_updated` and
  `trajectory_started` before any port access. The flag therefore stays
  clear when a later handshake fails (`src/andi_servo.c:203,210,323,330`).
- `update_filter` and `start_trajectory` commit by pointer assignment.
  Afterwards `Filter` and `NewFilter` (and `Trajectory` and
  `NewTrajectory`) are one record, so a later change to the pending record
  changes the running one. `Scenarios.AliasAfterCommit` shows this.
- `get_status` reads the command port with no handshake and always
  returns 0.
- `check_busy_bit`'s header comment says it tries the busy bit 3 times
  (`src/andi_servo.c:47`). The loop runs up to `BUSY_RETRY_LIMIT` times,
  which is 30 (`src/andi_servo.c:28`). The model follows the code: 30.

## Model

| member | source | states |
|---|---|---|
| Registers.CommandOffset | include/andi_servo.h:38-41 | the command port of channel 0 is at offset 0 and that of any other channel at offset 2, as `if (channel)` selects COMMAND_1 |
| Registers.DataOffset | include/andi_servo.h:38-41 | each channel's data port is one above its command port |
| Registers.PortLayout | include/andi_servo.h:38-47 | channel c has its command port at 2c and its data port at 2c+1; the board ports are at 4, 5 and 7; LED, IRQENABLE and IRQCAUSE share offset 6; no data port is a command port |
| Registers.FilterMasksAreBits | include/andi_servo.h:76-79 | LOAD_Kp, LOAD_Ki, LOAD_Kd and LOAD_Il are distinct single bits whose union is 0x0F |
| Registers.TrajectoryMasksAreBits | include/andi_servo.h:82-92 | the eleven trajectory control masks are distinct single bits whose union is 0x1F3F (bits 0-5 and 8-12) |
| Registers.StatusMasksCoverByte | include/andi_servo.h:95-102 | the eight status masks are distinct single bits that exactly cover 0xFF, with BUSY_BIT = 0x01 |
| Registers.SignalMasksUpperByte | include/andi_servo.h:104-112 | the signals masks are distinct single bits covering exactly 0xFF00, and FORWARD_DIRECTION and VELOCITY_MODE keep their trajectory-word values |
| Registers.OpcodesDistinct | include/andi_servo.h:121-137 | LFIL 0x1e and LTRJ 0x1f differ; UDF, STT, RSTI, RDSIGS and RDRP have their values; the eight opcodes used are pairwise distinct |
| Protocol.BusyIsBitZero | src/andi_servo.c:64 | a status byte counts as busy exactly when `status & BUSY_BIT` is non-zero |
| Protocol.Poll | src/andi_servo.c:63-74 | a poll makes at most `tries` reads and fetches no data; it returns 0 or -EBUSY, returns -EBUSY only after every try, and returns 0 only after at least one read |
| Protocol.PollReadsInOrder | src/andi_servo.c:63-64 | the i-th event of a poll is a read of the polled port seeing the i-th response, and the poll consumes exactly the responses it read |
| Protocol.PollStopsAtFirstReady | src/andi_servo.c:63-74 | every read but the last of a poll saw a busy chip; on success the last read saw it ready; on failure every try saw it busy |
| Protocol.HandshakeReadyAt | src/andi_servo.c:63-67 | when response i is the first ready one and i < 30, check_busy_bit reads i+1 times and returns 0 |
| Protocol.HandshakeExhausted | src/andi_servo.c:63-74 | when the first 30 responses are all busy, check_busy_bit reads 30 times and returns -EBUSY |
| Protocol.Handshake | src/andi_servo.c:28-75 | check_busy_bit makes between 1 and 30 reads and fetches no data; it returns 0 or -EBUSY, and -EBUSY only after all 30 reads |
| Protocol.HandshakeContract | src/andi_servo.c:28-75 | check_busy_bit reads its port 1 to 30 times, in response order; it returns 0 if and only if one of the first 30 responses is ready; it stops at the first ready one; otherwise it returns -EBUSY after exactly 30 reads |
| Protocol.PollWritesNothing | src/andi_servo.c:50-75 | check_busy_bit writes no port |
| Protocol.PollReadsOnlyItsPort | src/andi_servo.c:63-64 | check_busy_bit reads no port other than the command port it polls |
| Protocol.Exec | include/andi_servo.h:168-171 | a routine made of port accesses and CHECK_BUSY returns 0 or -EBUSY and consumes no more responses than it has |
| Protocol.ExecAppend | include/andi_servo.h:168-171 | running two parts in sequence is running the first and, unless it aborted, then the second: a failed CHECK_BUSY skips the rest |
| Protocol.ExecWritesOnSuccess | include/andi_servo.h:168-171 | a routine that returns 0 has made exactly the writes its script lists |
| Protocol.ExecFailureHasAbortPoint | include/andi_servo.h:168-171 | a routine that does not return 0 stopped at some CHECK_BUSY of its script |
| Protocol.ExecAbortsAtFailedCheck | include/andi_servo.h:168-171 | a routine that fails stopped at a failing CHECK_BUSY, and its writes are exactly those its script lists before that check, so no later write happens |
| Protocol.ExecBytesArePrefix | include/andi_servo.h:168-171 | the bytes a routine puts on any port are a prefix of the bytes its script lists for that port, and all of them when it returns 0 |
| Protocol.ExecGotIsDataReads | src/andi_servo.c:497-499 | in a script whose `In` actions all read one port, the bytes fetched are exactly the reads of that port in the trace |
| Encoding.HighByte | src/andi_servo.c:237 | `(t & 0xFF00) >> 8` is the byte that, placed above the low byte of t, gives t modulo 2^16 |
| Encoding.LowByte | src/andi_servo.c:238 | `t & 0x00FF` is the low byte of t modulo 2^16, and t minus it is a multiple of 256 |
| Encoding.WordSplit | src/andi_servo.c:237-238 | splitting the 16-bit word assembled from a high and a low byte gives those bytes back |
| Encoding.WordBytesRoundTrip | src/andi_servo.c:366-367 | the two bytes sent for a 16-bit control word, read back high first, are that word |
| Encoding.QuadBytes | src/andi_servo.c:373-379 | the four bytes sent for a magnitude, read back most significant first, are the magnitude modulo 2^32 |
| Encoding.AssembleRoundTrip | src/andi_servo.c:373-379 | any four bytes, assembled most significant first and split again as the driver sends a magnitude, are those four bytes |
| Encoding.DtermByte | src/andi_servo.c:220 | the dterm byte is 0 when dterm is 1 and 1 for every other dterm |
| Encoding.DtermByteAsWritten | src/andi_servo.c:220 | the dterm byte equals the low byte of dterm - 1 if and only if dterm is 1 or that low byte is 1; for dterm 5 they differ (1 against 4) |
| Encoding.FilterControlByte | src/andi_servo.c:222-230 | the filter control byte has LOAD_Kp, LOAD_Ki, LOAD_Kd and LOAD_Il set exactly for the non-zero terms and nothing in the upper nibble |
| Encoding.FilterPayload | src/andi_servo.c:220-260 | load_filter puts 2 + 2n bytes on the data port, n being the number of non-zero terms: the dterm byte, then the control byte, then the loaded terms |
| Encoding.LoadedFieldsFollowFlags | src/andi_servo.c:234-259 | a term or magnitude reaches the chip exactly when its load flag is set |
| Encoding.TakeFieldsRoundTrip | src/andi_servo.c:234-259 | reading the loaded fields back, one per set flag and in order, recovers each loaded value within its width |
| Encoding.FieldsFromLoaded | src/andi_servo.c:234-259 | the bytes sent for the fields depend only on what the chip receives: values that agree on every loaded field send the same bytes |
| Encoding.FilterRoundTrip | src/andi_servo.c:216-260 | decoding the filter bytes the way the LM629 reads them gives the dterm byte and each non-zero term modulo 2^16, and no value for the zero terms |
| Encoding.FilterPayloadDeterminedByChipView | src/andi_servo.c:216-260 | two filters produce the same data bytes if and only if the chip ends up with the same values |
| Encoding.TrajectoryControlWord | src/andi_servo.c:341-364 | the control word built from the record's flags has no bit set outside the eleven trajectory masks 0x1F3F |
| Encoding.ControlWordFlags | src/andi_servo.c:341-364 | each of the eleven trajectory flags can be read back from its own bit of the control word |
| Encoding.ControlWordRange | src/andi_servo.c:341-364 | the control word never has a bit set outside 0x1F3F |
| Encoding.ControlWordLoadsRecovered | src/andi_servo.c:341-364 | the chip finds the acceleration, velocity and position load flags in the control word exactly as the record sets them |
| Encoding.TrajectoryPayload | src/andi_servo.c:366-408 | load_trajectory puts 2 + 4m bytes on the data port, m being the number of load flags set, beginning with the control word high byte first |
| Encoding.DecodeTrajectoryParts | src/andi_servo.c:366-408 | the chip reads a trajectory load as its control word followed by one 32-bit value for each load flag in that word |
| Encoding.TrajectoryRoundTrip | src/andi_servo.c:366-408 | decoding the trajectory bytes the way the LM629 reads them gives the control word and each loaded magnitude modulo 2^32, and no value for the others |
| Encoding.TrajectoryPayloadDeterminedByChipView | src/andi_servo.c:366-408 | two trajectories produce the same data bytes if and only if the chip ends up with the same values |
| Commands.SoftResetWrites | src/andi_servo.c:99-114 | soft_reset writes RESET and RSTI to the command port and two zero bytes to the data port, and nothing else |
| Commands.SoftResetGuarded | src/andi_servo.c:103-112 | soft_reset's data byte pair directly follows a CHECK_BUSY |
| Commands.LoadFilterSteps | src/andi_servo.c:216-262 | load_filter is LFIL, a check, the dterm and control bytes, then for each of kp, ki, kd, il that is non-zero a check and its two bytes, then a final check |
| Commands.LoadFilterWrites | src/andi_servo.c:216-262 | load_filter writes LFIL to the command port and exactly the filter payload to the data port |
| Commands.LoadFilterGuarded | src/andi_servo.c:218-262 | every data byte pair of load_filter directly follows a CHECK_BUSY |
| Commands.LoadFilterBytes | src/andi_servo.c:216-262 | per port: load_filter sends [LFIL] to the command port, the payload to the data port, and nothing to any other port |
| Commands.LoadTrajectorySteps | src/andi_servo.c:337-410 | load_trajectory is LFIL, a check, the control word, a check, then for each of acc, velocity, position whose flag is set its two high bytes, a check, its two low bytes and a check, then a final check |
| Commands.LoadTrajectoryShape | src/andi_servo.c:337-410 | load_trajectory is its opening, the magnitude blocks after a check and a final check, and its data bytes are the control word followed by the loaded magnitudes |
| Commands.LoadTrajectoryOpensWithLfil | src/andi_servo.c:337 | load_trajectory's first action writes LFIL, not LTRJ, to the command port |
| Commands.LoadTrajectoryWrites | src/andi_servo.c:337-410 | load_trajectory writes LFIL to the command port and exactly the trajectory payload to the data port; no magnitude whose flag is clear is written |
| Commands.LoadTrajectoryGuarded | src/andi_servo.c:339-407 | every data byte pair of load_trajectory directly follows a CHECK_BUSY |
| Commands.LoadTrajectoryBytes | src/andi_servo.c:337-410 | per port: load_trajectory sends [LFIL] to the command port, the payload to the data port, and nothing elsewhere |
| Commands.CommitRun | src/andi_servo.c:287-289 | update_filter and start_trajectory write their opcode and then perform one handshake, whose result they return |
| Commands.CommitWrites | src/andi_servo.c:434-436 | the commit writes only its opcode to the command port |
| Commands.CommitBytes | src/andi_servo.c:287-289 | per port: the commit sends its opcode to the command port and nothing elsewhere |
| Commands.GetStatusRun | src/andi_servo.c:455-468 | get_status is one read of the command port with no handshake; it returns 0 and yields the byte read |
| Commands.SignalsRead | src/andi_servo.c:497-499 | once both bytes are read, the signals value is a 16-bit word whose high byte is the first byte read and whose low byte is the second; with fewer bytes it is the caller's old value |
| Commands.SignalsRoundTrip | src/andi_servo.c:497-499 | reading back the high and low byte of a 16-bit signals word yields that word |
| Commands.PositionRead | src/andi_servo.c:606-615 | once four bytes are read, the position is the 32-bit value whose bytes, most significant first, are exactly the four bytes read; after only two (a failed middle check) its bytes are 0, the two read, 0; before that it is the caller's old value |
| Commands.GetSignalsReads | src/andi_servo.c:491-503 | the bytes get_signals assembles are the reads of the data port, two of them when it returns 0 |
| Commands.GetSignalsShape | src/andi_servo.c:491-503 | get_signals reads only the data port, twice |
| Commands.GetSignalsWrites | src/andi_servo.c:491-503 | get_signals writes only RDSIGS, and its pair of reads follows a check |
| Commands.GetRealPositionReads | src/andi_servo.c:600-619 | the bytes get_real_position assembles are the reads of the data port, four of them when it returns 0 |
| Commands.GetRealPositionShape | src/andi_servo.c:600-619 | get_real_position reads only the data port, four times |
| Commands.GetRealPositionWrites | src/andi_servo.c:600-619 | get_real_position writes only RDRP, and each pair of reads follows a check |
| Startup.PulseStatusOk | src/andi_servo.c:722 | after the pulse hard_reset accepts exactly the statuses that, ignoring the breakpoint flag, show only the motor off and the trajectory complete; such a status is never busy |
| Startup.RstiStatusOk | src/andi_servo.c:740 | after RSTI hard_reset accepts exactly the statuses that, ignoring the breakpoint flag, show only the motor off; such a status is never busy |
| Startup.PulseRun | src/andi_servo.c:698-717 | the pulse writes 0 to IRQENABLE, reads CLEARIRQ, drives HARD_RESET to 2 (channel 1) or 1 (channel 0) for 200 ms and to 0 for 200 ms, and never fails |
| Startup.LineRun | src/andi_servo.c:705-708 | driving the reset line is a write of the level, a 200 ms delay, a write of 0 and a 200 ms delay |
| Startup.RstiRun | src/andi_servo.c:729-736 | against a ready chip, the RSTI step writes RSTI and two zero data bytes between two successful checks |
| Startup.PulseWrites | src/andi_servo.c:698-717 | the pulse writes IRQENABLE once and HARD_RESET twice |
| Startup.RstiWrites | src/andi_servo.c:729-736 | the RSTI step writes RSTI to the command port and two zeros to the data port |
| Startup.HardResetRun | src/andi_servo.c:693-750 | the pulse, the status read and its retry, RSTI, the second status read and its retry, then the last check; with no responses left every status reads 0xFF, which is never accepted, and hard_reset would call itself for ever |
| Startup.AttemptConsumes | src/andi_servo.c:698-720 | each attempt of hard_reset consumes at least one response while any remain |
| Startup.HardResetRetval | src/andi_servo.c:693-750 | hard_reset, when it returns, returns 0 or -EBUSY |
| Startup.HardResetHealthyRun | src/andi_servo.c:693-750 | a chip that accepts the pulse and RSTI and is ready at every check is reset in one attempt that returns 0, with the exact event sequence given |
| Startup.HealthyWrites | src/andi_servo.c:693-750 | that one attempt writes IRQENABLE, HARD_RESET twice, RSTI and two zero data bytes |
| Startup.HardResetRetries | src/andi_servo.c:720-727 | after a wrong status following the pulse, hard_reset's events begin with the pulse, the status read and a whole inner hard_reset |
| Startup.RunCallsIsExec | src/andi_servo.c:846-876 | calls with no hard reset among them, stopped at the first negative result, behave as one routine made of their scripts |
| Startup.InitScriptIsCalls | src/andi_servo.c:846-874 | the eight calls after the resets, in init_board's order, are both filter loads, both commits, both trajectory loads and both starts |
| Startup.InitBoardSteps | src/andi_servo.c:838-876 | init_board resets channel 0, returns on a negative result, resets channel 1, returns on a negative result, then runs the eight calls |
| Startup.FilterSetupBytes0 | src/andi_servo.c:846-858 | during the filter phase channel 0's command port receives LFIL then UDF and its data port its filter payload |
| Startup.FilterSetupBytes1 | src/andi_servo.c:846-858 | the same for channel 1 |
| Startup.TrajectorySetupBytes0 | src/andi_servo.c:860-874 | during the trajectory phase channel 0's command port receives LFIL then STT and its data port its trajectory payload |
| Startup.TrajectorySetupBytes1 | src/andi_servo.c:860-874 | the same for channel 1 |
| Startup.InitScriptBytes | src/andi_servo.c:846-874 | each channel's command port receives LFIL, UDF, LFIL, STT and its data port its filter then its trajectory payload |
| Startup.InitBoardBytes | src/andi_servo.c:833-877 | after the resets each channel's command and data bytes are prefixes of those, and all of them when init_board returns 0 |
| Startup.InitBoardRun | src/andi_servo.c:833-877 | init_board against an exhausted response list never returns, since its first hard_reset does not |
| Startup.InitBoardRetval | src/andi_servo.c:833-877 | init_board, when it returns, returns 0 or -EBUSY |
| Bus.Ports.Outb | include/andi_servo.h:164-166 | OUT puts the low byte of its value on the port and consumes no response |
| Bus.Ports.Inb | src/andi_servo.c:64 | inb yields the next response, or 0xFF once none are left, and records the read |
| Bus.Ports.Mdelay | src/andi_servo.c:101 | mdelay records a delay and touches no port |
| Device.Channel.constructor | src/servo.c:114-123 | a channel starts with separate current and pending records holding the same values and every flag clear |
| Servo.RunningOf | include/andi.h:75-86 | a channel whose snapshot has both records committed and both flags set runs its pending filter and trajectory |
| Servo.Driver.Send | include/andi_servo.h:164-166 | OUT appends one write of the value's low byte to the port, consumes no response and advances the routine's script by that action |
| Servo.Driver.Fetch | src/andi_servo.c:497-499 | an expected `inb` yields the next response (0xFF when none is left), consumes it, records the read and adds the byte to what the routine fetched |
| Servo.Driver.Sleep | src/andi_servo.c:706-708 | an expected `mdelay` records one delay and touches no port and no response |
| Servo.Driver.CheckBusyBit | src/andi_servo.c:50-75 | the loop of check_busy_bit selects the channel's command port and leaves exactly the trace, responses and result of the handshake |
| Servo.Driver.AwaitReady | include/andi_servo.h:168-171 | CHECK_BUSY continues with retval 0 after a successful check; after a failed one the routine returns that negative value having done all it will do |
| Servo.Driver.SelectPorts | src/andi_servo.c:88-97 | `command` and `data` select the command and data port of the channel |
| Servo.Driver.SoftReset | src/andi_servo.c:83-115 | soft_reset selects the channel's ports and leaves exactly the trace, responses and result of its script |
| Servo.Driver.FilterCommandWord | src/andi_servo.c:222-230 | the control byte built by the four `|=` is the filter control byte |
| Servo.Driver.ClearFilterUpdated | src/andi_servo.c:198-211 | load_filter's first step clears the selected channel's filter_updated, through a shared struct too, and changes nothing else, whatever the chip answers later |
| Servo.Driver.LoadFilter | src/andi_servo.c:190-265 | load_filter clears the channel's filter_updated whatever happens next, changes no other channel field (its snapshot is the load_filter effect, success or failure), and leaves exactly the trace, responses and result of its script for the pending filter |
| Servo.Driver.WriteFilter | src/andi_servo.c:212-262 | the port traffic of load_filter selects the channel's ports and is exactly its script for the pending filter |
| Servo.Driver.SendFilter | src/andi_servo.c:216-262 | from LFIL on, the routine ends having done all of its script and returns the script's result |
| Servo.Driver.SendFilterHead | src/andi_servo.c:216-232 | LFIL, a check, the dterm byte computed with `&&` and the control byte, with an early return on a failed check |
| Servo.Driver.SendTerm | src/andi_servo.c:234-239 | for a non-zero term a check and its high and low byte; nothing for a zero term |
| Servo.Driver.SendTerms | src/andi_servo.c:234-264 | the four term blocks in kp, ki, kd, il order and the closing check complete load_filter's script |
| Servo.Driver.Commit | src/andi_servo.c:287-289 | the opcode and one handshake, as the commit script |
| Servo.Driver.UpdateFilter | src/andi_servo.c:270-303 | on success the channel's current filter becomes the very record of its pending filter and filter_updated is set; on failure neither changes; its snapshot is the update_filter effect |
| Servo.Driver.ClearTrajectoryStarted | src/andi_servo.c:318-331 | load_trajectory's first step clears the selected channel's trajectory_started and changes nothing else, whatever the chip answers later |
| Servo.Driver.LoadTrajectory | src/andi_servo.c:309-413 | load_trajectory clears trajectory_started whatever happens next, changes no other channel field (its snapshot is the load_trajectory effect, success or failure), and leaves exactly the trace, responses and result of its script for the pending trajectory |
| Servo.Driver.WriteTrajectory | src/andi_servo.c:332-410 | the port traffic of load_trajectory selects the channel's ports and is exactly its script for the pending trajectory |
| Servo.Driver.SendTrajectory | src/andi_servo.c:337-410 | from LFIL on, the routine ends having done all of its script and returns the script's result |
| Servo.Driver.SendTrajectoryHead | src/andi_servo.c:337-369 | LFIL, a check, the control word high byte then low byte, and a check |
| Servo.Driver.SendMagnitude | src/andi_servo.c:371-382 | for a set load flag the magnitude's two high bytes, a check, its two low bytes and a check; nothing when the flag is clear |
| Servo.Driver.SendMagnitudes | src/andi_servo.c:371-410 | the acceleration, velocity and position blocks in that order and the closing check complete load_trajectory's script |
| Servo.Driver.StartTrajectory | src/andi_servo.c:418-450 | on success the channel's current trajectory becomes the very record of its pending trajectory and trajectory_started is set; on failure neither changes; its snapshot is the start_trajectory effect |
| Servo.Driver.GetStatus | src/andi_servo.c:455-468 | one unguarded read of the command port, returning 0 and the status read; no port selection and no channel field changes |
| Servo.Driver.GetSignals | src/andi_servo.c:473-506 | get_signals leaves the trace and result of its script and yields hi * 256 + lo from its two data reads; no channel field changes |
| Servo.Driver.Request | src/andi_servo.c:491-495 | a check, the read opcode and a check, returning early on a failed check |
| Servo.Driver.ReadSignals | src/andi_servo.c:491-505 | the signals are built by the read, the shift by 8 and the OR of the second read |
| Servo.Driver.GetRealPosition | src/andi_servo.c:582-622 | get_real_position leaves the trace and result of its script and yields the position from its four data reads, most significant first; no channel field changes |
| Servo.Driver.ReadPositionHigh | src/andi_servo.c:600-611 | the first two bytes, each followed by a shift by 8, then the middle check |
| Servo.Driver.ReadPositionLow | src/andi_servo.c:613-619 | the last two bytes and the final check complete the position |
| Servo.Driver.Pulse | src/andi_servo.c:698-717 | the opening of hard_reset selects the channel's ports and leaves exactly the pulse's events |
| Servo.Driver.ResetLine | src/andi_servo.c:705-708 | the reset register receives the level, then 0, each held for 200 ms |
| Servo.Driver.SendRsti | src/andi_servo.c:729-736 | RSTI, a check, two zero data bytes and a check, as the RSTI script |
| Servo.Driver.SendRstiSteps | src/andi_servo.c:729-736 | the RSTI step ends having done all of its script, returning early at a failed check |
| Servo.Driver.HardReset | src/andi_servo.c:693-750 | hard_reset leaves exactly the trace, responses and result of `HardResetRun`, with its recursive retries |
| Servo.Driver.RetryReset | src/andi_servo.c:722-727 | the retry after a wrong status is a whole hard_reset whose result is discarded |
| Servo.Driver.FinishReset | src/andi_servo.c:729-749 | the part of hard_reset from RSTI on |
| Servo.Driver.ConfirmReset | src/andi_servo.c:738-749 | the status read after RSTI, the retry on a status other than 0xC0 or 0x80, and the last check whose result is returned |
| Servo.Driver.InitBoard | src/andi_servo.c:833-877 | init_board leaves exactly the trace, responses and result of the ten calls in order, stopping at the first negative result; the channel structs end as the effects of the calls made, failed ones included; when it returns 0 both channels run their pending filter and trajectory |
| Servo.Driver.Configure | src/andi_servo.c:846-876 | the eight calls after the resets: the trace and result of their script, and the channel structs as the effects of the calls made, on every path; on success both channels run their pending records |
| Servo.Driver.SetFilters | src/andi_servo.c:846-858 | both filter loads, then both commits: the trace and result of the filter half and the channel structs as the effects of the calls made; on success both channels run their pending filter |
| Servo.Driver.LoadFilters | src/andi_servo.c:846-851 | load_filter on channel 0, then on channel 1 unless the first failed; the structs show exactly the flags those calls cleared |
| Servo.Driver.UpdateFilters | src/andi_servo.c:853-858 | update_filter on channel 0, then on channel 1; the structs as the effects of the calls made; on success both filters are committed |
| Servo.Driver.SetTrajectories | src/andi_servo.c:860-874 | both trajectory loads, then both starts: the trace and result of the trajectory half and the channel structs as the effects of the calls made; on success both channels run their pending trajectory |
| Servo.Driver.LoadTrajectories | src/andi_servo.c:860-866 | load_trajectory on channel 0, then on channel 1 unless the first failed; the structs show exactly the flags those calls cleared |
| Servo.Driver.StartTrajectories | src/andi_servo.c:868-874 | start_trajectory on channel 0, then on channel 1; the structs as the effects of the calls made; on success both trajectories are started |
| Servo.Driver.PerformLoadFilter | src/andi_servo.c:846-851 | one load_filter call of init_board: its script's trace and result, its effect on the structs, the board's pending records unchanged |
| Servo.Driver.PerformUpdateFilter | src/andi_servo.c:853-858 | one update_filter call of init_board: its script's trace and result, its effect on the structs, the board's pending records unchanged |
| Servo.Driver.PerformLoadTrajectory | src/andi_servo.c:860-866 | one load_trajectory call of init_board: its script's trace and result, its effect on the structs, the board's pending records unchanged |
| Servo.Driver.PerformStartTrajectory | src/andi_servo.c:868-874 | one start_trajectory call of init_board: its script's trace and result, its effect on the structs, the board's pending records unchanged |
| ChannelEffects.EffectsFirst | src/andi_servo.c:846-876 | a run of calls is the first call's effect, then, unless it returned a negative value, the rest from the responses it left |
| ChannelEffects.EffectsPair | src/andi_servo.c:846-858 | two calls in a row: the second's effect happens only when the first did not fail |
| ChannelEffects.EffectsAppend | src/andi_servo.c:833-877 | a run of calls split anywhere is the first part, then the second part only if the first part neither diverged nor failed |
| ChannelEffects.EffectKeepsCoherent | src/andi_servo.c:190-450 | each routine keeps the flags honest (a set filter_updated or trajectory_started means the current record is the pending one), never moves a pending pointer and keeps a shared struct shared |
| ChannelEffects.EffectsKeepCoherent | src/andi_servo.c:833-877 | the same for every run of init_board's calls, whatever the chip answers and wherever the run stops |
| ChannelEffects.FirstLoadFails | src/andi_servo.c:846-848 | when the first load_filter fails, the only change init_board makes to the structs after the resets is clearing channel 0's filter_updated |
| ChannelEffects.ResetFirst | src/andi_servo.c:838-844 | hard_reset changes no channel struct: the calls after it run from the responses it left, unless it failed |
| ChannelEffects.TrajectoryCallsKeep | src/andi_servo.c:860-874 | the trajectory calls never change a channel's filter or filter_updated |
| ChannelEffects.PairRuns | src/andi_servo.c:846-851 | two calls with no hard reset, stopped at the first failure, run as one routine made of their two scripts |
| ChannelEffects.FilterCallsRun | src/andi_servo.c:846-858 | init_board's four filter calls run as its filter script |
| ChannelEffects.PairSucceeds | src/andi_servo.c:846-874 | when both calls of a pair return 0, both success effects happen, first before second |
| ChannelEffects.FilterSetupSplit | src/andi_servo.c:846-858 | the filter half is both loads, then both commits unless a load failed, in the responses and in the structs alike |
| ChannelEffects.TrajectorySetupSplit | src/andi_servo.c:860-874 | the trajectory half is both loads, then both starts unless a load failed, in the responses and in the structs alike |
| ChannelEffects.SetupSplit | src/andi_servo.c:846-876 | the eight calls are the filter half, then the trajectory half unless the filter half failed |
| ChannelEffects.FilterSetupSucceeds | src/andi_servo.c:846-858 | when the filter half returns 0, the four success effects happen in order |
| ChannelEffects.TrajectorySetupSucceeds | src/andi_servo.c:860-874 | when the trajectory half returns 0, the four success effects happen in order |
| ChannelEffects.SetupSucceeds | src/andi_servo.c:846-876 | when the eight calls return 0, both channels run their pending filter and trajectory with both flags set, whatever the structs held before, shared or not |
| Scenarios.DefaultFilterControl | src/servo.c:42-48 | the default filter (Kp 2, Kd 50, Ki and Il 0) has control byte 0x0A |
| Scenarios.DefaultFilterBytes | src/servo.c:42-48 | the default filter goes to the data port as 01 0A 00 02 00 32 |
| Scenarios.DefaultFilterInChip | src/servo.c:42-48 | the chip decodes those bytes as dterm byte 1, Kp 2 and Kd 50, with no Ki and no Il |
| Scenarios.DefaultTrajectoryBytes | src/servo.c:74-82 | the default trajectory has control word 0x042A and goes out as 04 2A, 00 02 71 00, 00 03 0D 40, 00 00 00 00 |
| Scenarios.PositionReadBack | src/andi_servo.c:606-615 | reading back the four bytes of a 32-bit position, most significant first, yields that position |
| Scenarios.AliasAfterCommit | src/andi_servo.c:293-299 | after update_filter, changing the pending filter's Kp to 7 changes the Kp of the filter the channel runs |

## Left out

- The stub routines that only select ports and return 0 without I/O are not part of this model (`src/andi_servo.c:120-184, 512-577, 628-688, 755-828`). These are define_home, set_position_error_threshold, set_breakpoint, the index, desired-position and velocity getters, the interrupt-mask routines, the PWM-brake routines, get_filter and get_trajectory.
- The text rendering in print_filter, print_trajectory, print_status and print_signals (`src/andi_servo.c:882-1022`) is presentation only.
- The kernel-module glue in `src/servo.c` is not part of this model: module init and cleanup, procfs, file operations, ioctl dispatch and user copies. Only its initial records are used, as worked cases.
- Logging (`L`, `LG`) and the shared 512-byte text buffer are dropped.
- `mdelay` is only a `Delay` event in the trace; timing is not modelled.
- The real `inb` and `outb` are foreign calls. They are replaced by a trace and a finite list of chip responses.
- `command` and `data` are fields of one `Driver` object, and the model is single-threaded. Two threads driving both channels at once through the shared file-scope globals are not modelled.
- `BOOLEAN` fields are `bool`. Any non-zero C value counts as true, which is how every test in the code reads them.
- Servo.Driver.HardReset: requires a device for which the recursion ends. Against a chip that keeps answering with a wrong status, or an exhausted response list (a floating bus), the C routine recurses without bound. The model states this (`Startup.HardResetRun`, `Startup.InitBoardRun`) rather than executing it.
- Servo.Driver.LoadTrajectory: the control word comes from the function `Encoding.TrajectoryControlWord`, the OR of the masks of the set flags. The eleven `|=` statements are not run one by one: a proof over a chain of eleven conditional 16-bit ORs is beyond the solver's budget. The filter control byte's four `|=` are run as written (`Servo.Driver.FilterCommandWord`).
- Servo.Driver.ReadSignals and Servo.Driver.ReadPositionLow: the OR of a freshly read byte into a value just shifted left by 8 is written as an addition. The low byte is zero at that point, so the two agree.
- Commands.PositionRead: the position is the unsigned 32-bit value of the four bytes. `long` width and sign are not modelled. On a 32-bit `long`, a top byte of 0x80 or more makes the C value negative.
- Encoding.HighByte and Encoding.LowByte: terms and magnitudes are unbounded integers, cut to 16 or 32 bits by the masks as in C. The behaviour of `&` on negative values is modelled by the Euclidean remainder, which matches two's complement for these masks.
- Commands.SoftResetScript, LoadFilterScript, LoadTrajectoryScript, CommitScript, UpdateFilterScript, StartTrajectoryScript, GetStatusScript, GetSignalsScript and GetRealPositionScript: these are the literal action lists of the routines and carry no contract of their own; what each one means is stated by the lemmas about it in the table (`*Writes`, `*Guarded`, `*Steps`, `*Bytes`, `*Run`, `*Reads`, `*Shape`).
- ChannelEffects.Effect and ChannelEffects.Effects: these are the reference definitions of what the routines do to the channel structs, and carry no contract of their own; the driver routines' ensures clauses (`Snapshot(board) == Effect(...)` or `Effects(...)`) and the `Effects*`, `*Split`, `*Succeeds`, `FirstLoadFails` and `*Keep*` lemmas in the table are stated against them.
- Encoding.WordBytes: the contract on the function itself states only its length; the round trip is the lemma `Encoding.WordBytesRoundTrip`, which keeps the proofs of its many callers small.
- The routines are split into smaller methods (Send*, Read*, *Stage) with ghost bookkeeping of the remaining script. Each split follows the C routine's own sections between CHECK_BUSY points.
