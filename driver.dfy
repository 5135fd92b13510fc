/** The chip routines of src/andi_servo.c, written the way the driver
    runs them: port numbers kept in the file-scope `command` and `data`,
    bytes sent and read one at a time, a handshake before each group of
    data bytes that returns -EBUSY from the routine when it fails, and the
    channel's flags and record pointers updated in place. Each routine is
    proved to do on the bus exactly what its script in `Commands` or
    `Startup` describes. */
module Servo {
  import opened Registers
  import opened Protocol
  import opened Encoding
  import opened Commands
  import opened Startup
  import opened Bus
  import opened Device
  import opened ChannelEffects

  /** What init_board works from, read off the board: the base address
      and each channel's pending filter and trajectory. */
  ghost function SetupOf(board: Board): Setup
    reads board, board.channel0`newFilter, board.channel1`newFilter
    reads board.channel0`newTrajectory, board.channel1`newTrajectory
    reads board.channel0.newFilter, board.channel1.newFilter
    reads board.channel0.newTrajectory, board.channel1.newTrajectory
  {
    Setup(board.baseAddress, board.channel0.newFilter.Value(), board.channel1.newFilter.Value(),
          board.channel0.newTrajectory.Value(), board.channel1.newTrajectory.Value())
  }

  /** The pending records stay where they are while only flags and
      current pointers change. */
  twostate lemma SetupKept(board: Board)
    requires unchanged(board)
    requires unchanged(board.channel0`newFilter, board.channel1`newFilter)
    requires unchanged(board.channel0`newTrajectory, board.channel1`newTrajectory)
    requires unchanged(old(board.channel0.newFilter), old(board.channel1.newFilter))
    requires unchanged(old(board.channel0.newTrajectory), old(board.channel1.newTrajectory))
    ensures SetupOf(board) == old(SetupOf(board))
  {
  }

  /** A channel struct as the bring-up routines see it. */
  ghost function SlotOf(ch: Channel): Slot
    reads ch`filter, ch`newFilter, ch`filterUpdated, ch`trajectory, ch`newTrajectory, ch`trajectoryStarted
  {
    Slot(ch.filter, ch.newFilter, ch.filterUpdated, ch.trajectory, ch.newTrajectory, ch.trajectoryStarted)
  }

  /** Both channel structs of the board. */
  ghost function Snapshot(board: Board): Slots
    reads board, board.channel0`filter, board.channel0`newFilter, board.channel0`filterUpdated
    reads board.channel0`trajectory, board.channel0`newTrajectory, board.channel0`trajectoryStarted
    reads board.channel1`filter, board.channel1`newFilter, board.channel1`filterUpdated
    reads board.channel1`trajectory, board.channel1`newTrajectory, board.channel1`trajectoryStarted
  {
    Slots(SlotOf(board.channel0), SlotOf(board.channel1), board.channel0 == board.channel1)
  }

  /** The channel runs its pending filter, committed by update_filter. */
  ghost predicate FilterCommitted(ch: Channel)
    reads ch`filter, ch`newFilter, ch`filterUpdated
  {
    ch.filter == ch.newFilter && ch.filterUpdated
  }

  /** The channel runs its pending trajectory, started by start_trajectory. */
  ghost predicate TrajectoryStarted(ch: Channel)
    reads ch`trajectory, ch`newTrajectory, ch`trajectoryStarted
  {
    ch.trajectory == ch.newTrajectory && ch.trajectoryStarted
  }

  /** Both committed: what init_board leaves when it returns 0. */
  ghost predicate Running(ch: Channel)
    reads ch`filter, ch`newFilter, ch`filterUpdated, ch`trajectory, ch`newTrajectory, ch`trajectoryStarted
  {
    FilterCommitted(ch) && TrajectoryStarted(ch)
  }

  /** Running, read off the snapshot. */
  lemma RunningOf(board: Board)
    ensures Runs(Snapshot(board).c0) ==> Running(board.channel0)
    ensures Runs(Snapshot(board).c1) ==> Running(board.channel1)
  {
  }

  class Driver {
    /** The file-scope port numbers the routines select on entry. */
    var command: int
    var data: int
    /** The I/O ports of the board. */
    const io: Ports

    // While a routine runs: the trace when it began, what its script
    // does from the responses it started with, the part of that done so
    // far and the actions still to come.
    ghost var trace0: seq<Event>
    ghost var goal: Run
    ghost var done: Run
    ghost var todo: seq<Action>

    constructor (ports: Ports)
      ensures io == ports && command == 0 && data == 0
    {
      io := ports;
      command, data := 0, 0;
    }

    /** The routine has followed its script so far and not returned. */
    ghost predicate Live()
      reads this, io
    {
      && io.trace == trace0 + done.events && io.input == done.rest
      && done.retval == 0 && Pending(done, todo) == goal
    }

    /** Since the bus showed `before`, the ports have seen what `r` does
        and the routine returns what `r` returns. */
    ghost predicate Ran(before: seq<Event>, r: Run, retval: int)
      reads io
    {
      io.trace == before + r.events && io.input == r.rest && retval == r.retval
    }

    /** The routine has done all its script does and returns its value. */
    ghost predicate Returned(retval: int)
      reads this, io
    {
      io.trace == trace0 + goal.events && io.input == goal.rest && retval == goal.retval
    }

    ghost method Begin(script: seq<Action>)
      modifies this`trace0, this`goal, this`done, this`todo
      ensures Live() && todo == script && trace0 == io.trace && goal == Exec(script, io.input)
      ensures done.got == []
    {
      trace0, goal, done, todo := io.trace, Exec(script, io.input), Run([], [], io.input, 0), script;
      Start(script, io.input);
    }

    ghost method End()
      requires Live() && todo == []
      ensures Returned(0) && goal.got == done.got
    {
      Finished(done);
    }

    /** The OUT macro. */
    method Send(value: int, port: int)
      requires Live() && todo != [] && todo[0] == Action.Out(value, port)
      modifies io, this`done, this`todo
      ensures Live() && todo == old(todo)[1..] && done.got == old(done.got)
      ensures io.trace == old(io.trace) + [Write(port, value % 0x100)] && io.input == old(io.input)
      ensures command == old(command) && data == old(data)
    {
      io.Outb(value, port);
      Advance(done, todo);
      done := Then(done, Step(todo[0], done.rest));
      todo := todo[1..];
    }

    /** An `inb` the script expects. */
    method Fetch(port: int) returns (b: Byte)
      requires Live() && todo != [] && todo[0] == Action.In(port)
      modifies io, this`done, this`todo
      ensures Live() && todo == old(todo)[1..] && done.got == old(done.got) + [b]
      ensures b == Next(old(io.input)) && io.input == Drop(old(io.input))
      ensures io.trace == old(io.trace) + [Read(port, b)]
      ensures command == old(command) && data == old(data)
    {
      b := io.Inb(port);
      Advance(done, todo);
      done := Then(done, Step(todo[0], done.rest));
      todo := todo[1..];
    }

    /** An `mdelay` the script expects. */
    method Sleep(ms: nat)
      requires Live() && todo != [] && todo[0] == Action.Pause(ms)
      modifies io, this`done, this`todo
      ensures Live() && todo == old(todo)[1..] && done.got == old(done.got)
      ensures io.trace == old(io.trace) + [Delay(ms)] && io.input == old(io.input)
      ensures command == old(command) && data == old(data)
    {
      io.Mdelay(ms);
      Advance(done, todo);
      done := Then(done, Step(todo[0], done.rest));
      todo := todo[1..];
    }

    /** check_busy_bit: polls the channel's command port until the busy
        bit reads clear, at most BUSY_RETRY_LIMIT times; it leaves
        `command` selecting the channel. */
    method CheckBusyBit(board: Board, channel: int) returns (retval: int)
      modifies this`command, io
      ensures command == CommandPort(board.baseAddress, channel) && data == old(data)
      ensures var h := Handshake(command, old(io.input));
        io.trace == old(io.trace) + h.events && io.input == h.rest && retval == h.retval
    {
      if channel != 0 {
        command := board.baseAddress + COMMAND_1;
      } else {
        command := board.baseAddress + COMMAND_0;
      }
      ghost var responses := io.input;
      var i := 0;
      while i < BUSY_RETRY_LIMIT
        invariant 0 <= i <= BUSY_RETRY_LIMIT
        invariant command == CommandPort(board.baseAddress, channel)
        invariant io.trace == old(io.trace) + ReadsOf(command, responses, i)
        invariant io.input == After(responses, i)
        invariant forall j | 0 <= j < i :: Busy(At(responses, j))
      {
        NextAfter(responses, i);
        var status := io.Inb(command);
        BusyIsBitZero(status);
        if (status as bv8) & BUSY_BIT == 0 {
          HandshakeReadyAt(command, responses, i);
          ReadsOfSnoc(command, responses, i);
          return 0;
        }
        ReadsOfSnoc(command, responses, i);
        i := i + 1;
      }
      HandshakeExhausted(command, responses);
      return -EBUSY;
    }

    /** The CHECK_BUSY macro: a handshake the script expects; when it
        fails, the routine has done everything its script does. */
    method AwaitReady(board: Board, channel: int) returns (retval: int)
      requires Live() && todo != [] && todo[0] == Action.CheckBusy(CommandPort(board.baseAddress, channel))
      modifies io, this`done, this`todo, this`command
      ensures command == CommandPort(board.baseAddress, channel) && data == old(data)
      ensures retval == 0 ==> Live() && todo == old(todo)[1..] && done.got == old(done.got)
      ensures retval != 0 ==> retval < 0 && Returned(retval) && goal.got == old(done.got)
    {
      ghost var h := Handshake(CommandPort(board.baseAddress, channel), done.rest);
      assert Step(todo[0], done.rest) == h;
      retval := CheckBusyBit(board, channel);
      if retval < 0 {
        Abort(done, todo);
        assert goal == Then(done, h);
        assert io.trace == trace0 + (done.events + h.events);
        return;
      }
      Advance(done, todo);
      done := Then(done, h);
      todo := todo[1..];
    }

    /** Selects the channel's command and data ports, as each routine
        does on entry. */
    method SelectPorts(board: Board, channel: int)
      modifies this`command, this`data
      ensures command == CommandPort(board.baseAddress, channel) && data == DataPort(board.baseAddress, channel)
    {
      if channel != 0 {
        command := board.baseAddress + COMMAND_1;
        data := board.baseAddress + DATA_1;
      } else {
        command := board.baseAddress + COMMAND_0;
        data := board.baseAddress + DATA_0;
      }
    }

    /** soft_reset */
    method SoftReset(board: Board, channel: int) returns (retval: int)
      modifies this, io
      ensures command == CommandPort(board.baseAddress, channel) && data == DataPort(board.baseAddress, channel)
      ensures var r := Exec(SoftResetScript(board.baseAddress, channel), old(io.input));
        io.trace == old(io.trace) + r.events && io.input == r.rest && retval == r.retval
    {
      SelectPorts(board, channel);
      Begin(SoftResetScript(board.baseAddress, channel));
      Send(RESET, command);
      Sleep(2);
      retval := AwaitReady(board, channel);
      if retval < 0 { return; }
      Send(RSTI, command);
      retval := AwaitReady(board, channel);
      if retval < 0 { return; }
      Send(0x00, data);
      Send(0x00, data);
      retval := AwaitReady(board, channel);
      if retval < 0 { return; }
      End();
      return 0;
    }

    /** One of load_filter's `if (filter->kX)` blocks: when the term is
        non-zero, CHECK_BUSY, then its high byte `(x & 0xFF00) >> 8` and
        its low byte `x & 0x00FF`. */
    method SendTerm(board: Board, channel: int, term: int, ghost rest: seq<Action>) returns (retval: int)
      requires command == CommandPort(board.baseAddress, channel) && data == DataPort(board.baseAddress, channel)
      requires Live() && todo == TermActions(command, data, term != 0, term) + rest
      modifies io, this`done, this`todo, this`command
      ensures command == old(command) && data == old(data)
      ensures retval == 0 ==> Live() && todo == rest
      ensures retval != 0 ==> retval < 0 && Returned(retval)
    {
      retval := 0;
      if term != 0 {
        retval := AwaitReady(board, channel);
        if retval < 0 { return; }
        Send(HighByte(term), data);
        Send(LowByte(term), data);
      }
    }

    /** load_filter's control byte: LOAD_Kp, LOAD_Ki, LOAD_Kd and LOAD_Il
        OR-ed in for the non-zero terms. */
    static method FilterCommandWord(filter: Filter) returns (commandword: bv8)
      ensures commandword == FilterControlByte(filter.Value())
    {
      commandword := 0;
      if filter.kp != 0 { commandword := commandword | LOAD_KP; }
      if filter.ki != 0 { commandword := commandword | LOAD_KI; }
      if filter.kd != 0 { commandword := commandword | LOAD_KD; }
      if filter.il != 0 { commandword := commandword | LOAD_IL; }
    }

    /** The first thing load_filter does: clear the channel's
        filter_updated, whatever the chip will answer. */
    method ClearFilterUpdated(board: Board, channel: int)
      modifies board.ChannelAt(channel)`filterUpdated
      ensures !board.ChannelAt(channel).filterUpdated
      ensures forall ok :: Snapshot(board) == Effect(LoadFilterCall(channel), ok, old(Snapshot(board)))
    {
      board.ChannelAt(channel).filterUpdated := false;
    }

    /** The first thing load_trajectory does: clear the channel's
        trajectory_started. */
    method ClearTrajectoryStarted(board: Board, channel: int)
      modifies board.ChannelAt(channel)`trajectoryStarted
      ensures !board.ChannelAt(channel).trajectoryStarted
      ensures forall ok :: Snapshot(board) == Effect(LoadTrajectoryCall(channel), ok, old(Snapshot(board)))
    {
      board.ChannelAt(channel).trajectoryStarted := false;
    }

    /** load_filter: clears the channel's filter_updated flag, then sends
        LFIL, the dterm byte, the control byte and each non-zero term of
        the channel's pending filter. */
    method LoadFilter(board: Board, channel: int) returns (retval: int)
      modifies this, io, board.ChannelAt(channel)`filterUpdated
      ensures command == CommandPort(board.baseAddress, channel) && data == DataPort(board.baseAddress, channel)
      ensures !board.ChannelAt(channel).filterUpdated
      ensures Snapshot(board) == Effect(LoadFilterCall(channel), retval == 0, old(Snapshot(board)))
      ensures var r := Exec(LoadFilterScript(board.baseAddress, channel, board.ChannelAt(channel).newFilter.Value()), old(io.input));
        io.trace == old(io.trace) + r.events && io.input == r.rest && retval == r.retval
    {
      ClearFilterUpdated(board, channel);
      retval := WriteFilter(board, channel);
    }

    /** The port traffic of load_filter. */
    method WriteFilter(board: Board, channel: int) returns (retval: int)
      modifies this, io
      ensures command == CommandPort(board.baseAddress, channel) && data == DataPort(board.baseAddress, channel)
      ensures var r := Exec(LoadFilterScript(board.baseAddress, channel, board.ChannelAt(channel).newFilter.Value()), old(io.input));
        io.trace == old(io.trace) + r.events && io.input == r.rest && retval == r.retval
    {
      SelectPorts(board, channel);
      var filter := board.ChannelAt(channel).newFilter;
      Begin(LoadFilterScript(board.baseAddress, channel, filter.Value()));
      retval := SendFilter(board, channel, filter);
    }

    /** The bus traffic of load_filter, from OUT(LFIL, command) on. */
    method SendFilter(board: Board, channel: int, filter: Filter) returns (retval: int)
      requires command == CommandPort(board.baseAddress, channel) && data == DataPort(board.baseAddress, channel)
      requires Live() && todo == LoadFilterScript(board.baseAddress, channel, filter.Value())
      modifies io, this`done, this`todo, this`command
      ensures command == old(command) && data == old(data)
      ensures Returned(retval)
    {
      ghost var f := filter.Value();
      ghost var terms := TermActions(command, data, f.kp != 0, f.kp) + (TermActions(command, data, f.ki != 0, f.ki)
        + (TermActions(command, data, f.kd != 0, f.kd) + (TermActions(command, data, f.il != 0, f.il) + [CheckBusy(command)])));
      LoadFilterSteps(board.baseAddress, channel, f);
      retval := SendFilterHead(board, channel, filter, terms);
      if retval < 0 { return; }
      retval := SendTerms(board, channel, filter);
    }

    /** load_filter up to the control byte. */
    method SendFilterHead(board: Board, channel: int, filter: Filter, ghost rest: seq<Action>) returns (retval: int)
      requires command == CommandPort(board.baseAddress, channel) && data == DataPort(board.baseAddress, channel)
      requires Live() && todo == [Out(LFIL, command), CheckBusy(command), Out(DtermByte(filter.Value().dterm), data),
                                  Out(FilterControlByte(filter.Value()) as int, data)] + rest
      modifies io, this`done, this`todo, this`command
      ensures command == old(command) && data == old(data)
      ensures retval == 0 ==> Live() && todo == rest
      ensures retval != 0 ==> retval < 0 && Returned(retval)
    {
      Send(LFIL, command);
      retval := AwaitReady(board, channel);
      if retval < 0 { return; }
      Send(if filter.dterm - 1 != 0 && 0x00FF != 0 then 1 else 0, data);
      var commandword := FilterCommandWord(filter);
      Send(commandword as int, data);
    }

    /** The four term blocks of load_filter and its closing CHECK_BUSY. */
    method SendTerms(board: Board, channel: int, filter: Filter) returns (retval: int)
      requires command == CommandPort(board.baseAddress, channel) && data == DataPort(board.baseAddress, channel)
      requires Live()
      requires var f := filter.Value();
        todo == TermActions(command, data, f.kp != 0, f.kp) + (TermActions(command, data, f.ki != 0, f.ki)
          + (TermActions(command, data, f.kd != 0, f.kd) + (TermActions(command, data, f.il != 0, f.il) + [CheckBusy(command)])))
      modifies io, this`done, this`todo, this`command
      ensures command == old(command) && data == old(data)
      ensures Returned(retval)
    {
      ghost var f := filter.Value();
      ghost var tIl := TermActions(command, data, f.il != 0, f.il) + [CheckBusy(command)];
      ghost var tKd := TermActions(command, data, f.kd != 0, f.kd) + tIl;
      ghost var tKi := TermActions(command, data, f.ki != 0, f.ki) + tKd;
      retval := SendTerm(board, channel, filter.kp, tKi);
      if retval < 0 { return; }
      retval := SendTerm(board, channel, filter.ki, tKd);
      if retval < 0 { return; }
      retval := SendTerm(board, channel, filter.kd, tIl);
      if retval < 0 { return; }
      retval := SendTerm(board, channel, filter.il, [CheckBusy(command)]);
      if retval < 0 { return; }
      retval := AwaitReady(board, channel);
      if retval < 0 { return; }
      End();
      return 0;
    }

    /** The bus traffic of update_filter and start_trajectory: the
        opcode, then CHECK_BUSY. */
    method Commit(board: Board, channel: int, opcode: int) returns (retval: int)
      modifies this, io
      ensures command == CommandPort(board.baseAddress, channel) && data == DataPort(board.baseAddress, channel)
      ensures var r := Exec(CommitScript(board.baseAddress, channel, opcode), old(io.input));
        io.trace == old(io.trace) + r.events && io.input == r.rest && retval == r.retval
    {
      SelectPorts(board, channel);
      Begin(CommitScript(board.baseAddress, channel, opcode));
      Send(opcode, command);
      retval := AwaitReady(board, channel);
      if retval < 0 { return; }
      End();
      return 0;
    }

    /** update_filter: sends UDF; once the chip is ready, the channel's
        Filter pointer is set to its NewFilter record, so that both name
        one record, and filter_updated is set. */
    method UpdateFilter(board: Board, channel: int) returns (retval: int)
      modifies this, io, board.ChannelAt(channel)`filter, board.ChannelAt(channel)`filterUpdated
      ensures command == CommandPort(board.baseAddress, channel) && data == DataPort(board.baseAddress, channel)
      ensures var r := Exec(UpdateFilterScript(board.baseAddress, channel), old(io.input));
        io.trace == old(io.trace) + r.events && io.input == r.rest && retval == r.retval
      ensures var ch := board.ChannelAt(channel);
        if retval == 0 then ch.filter == ch.newFilter && ch.filterUpdated
        else ch.filter == old(ch.filter) && ch.filterUpdated == old(ch.filterUpdated)
      ensures Snapshot(board) == Effect(UpdateFilterCall(channel), retval == 0, old(Snapshot(board)))
    {
      retval := Commit(board, channel, UDF);
      if retval < 0 { return; }
      if channel != 0 {
        board.channel1.filter := board.channel1.newFilter;
        board.channel1.filterUpdated := true;
      } else {
        board.channel0.filter := board.channel0.newFilter;
        board.channel0.filterUpdated := true;
      }
      return 0;
    }

    /** load_trajectory: clears the channel's trajectory_started flag, then
        sends LFIL (where the chip expects LTRJ), the control word and each
        magnitude whose load flag is set, from the channel's pending
        trajectory. */
    method LoadTrajectory(board: Board, channel: int) returns (retval: int)
      modifies this, io, board.ChannelAt(channel)`trajectoryStarted
      ensures command == CommandPort(board.baseAddress, channel) && data == DataPort(board.baseAddress, channel)
      ensures !board.ChannelAt(channel).trajectoryStarted
      ensures Snapshot(board) == Effect(LoadTrajectoryCall(channel), retval == 0, old(Snapshot(board)))
      ensures var r := Exec(LoadTrajectoryScript(board.baseAddress, channel, board.ChannelAt(channel).newTrajectory.Value()), old(io.input));
        io.trace == old(io.trace) + r.events && io.input == r.rest && retval == r.retval
    {
      ClearTrajectoryStarted(board, channel);
      retval := WriteTrajectory(board, channel);
    }

    /** The port traffic of load_trajectory. */
    method WriteTrajectory(board: Board, channel: int) returns (retval: int)
      modifies this, io
      ensures command == CommandPort(board.baseAddress, channel) && data == DataPort(board.baseAddress, channel)
      ensures var r := Exec(LoadTrajectoryScript(board.baseAddress, channel, board.ChannelAt(channel).newTrajectory.Value()), old(io.input));
        io.trace == old(io.trace) + r.events && io.input == r.rest && retval == r.retval
    {
      SelectPorts(board, channel);
      var trajectory := board.ChannelAt(channel).newTrajectory;
      Begin(LoadTrajectoryScript(board.baseAddress, channel, trajectory.Value()));
      retval := SendTrajectory(board, channel, trajectory);
    }

    /** The bus traffic of load_trajectory, from OUT(LFIL, command) on. */
    method SendTrajectory(board: Board, channel: int, trajectory: Trajectory) returns (retval: int)
      requires command == CommandPort(board.baseAddress, channel) && data == DataPort(board.baseAddress, channel)
      requires Live() && todo == LoadTrajectoryScript(board.baseAddress, channel, trajectory.Value())
      modifies io, this`done, this`todo, this`command
      ensures command == old(command) && data == old(data)
      ensures Returned(retval)
    {
      ghost var t := trajectory.Value();
      ghost var magnitudes := MagnitudeActions(command, data, t.loadAcc, t.acc) + (MagnitudeActions(command, data, t.loadVel, t.velocity)
        + (MagnitudeActions(command, data, t.loadPos, t.position) + [CheckBusy(command)]));
      LoadTrajectorySteps(board.baseAddress, channel, t);
      retval := SendTrajectoryHead(board, channel, trajectory, magnitudes);
      if retval < 0 { return; }
      retval := SendMagnitudes(board, channel, trajectory);
    }

    /** load_trajectory up to the CHECK_BUSY after the control word. */
    method SendTrajectoryHead(board: Board, channel: int, trajectory: Trajectory, ghost rest: seq<Action>) returns (retval: int)
      requires command == CommandPort(board.baseAddress, channel) && data == DataPort(board.baseAddress, channel)
      requires var w := WordBytes(TrajectoryControlWord(trajectory.Value()));
        Live() && todo == [Out(LFIL, command), CheckBusy(command), Out(w[0], data), Out(w[1], data), CheckBusy(command)] + rest
      modifies io, this`done, this`todo, this`command
      ensures command == old(command) && data == old(data)
      ensures retval == 0 ==> Live() && todo == rest
      ensures retval != 0 ==> retval < 0 && Returned(retval)
    {
      Send(LFIL, command);
      retval := AwaitReady(board, channel);
      if retval < 0 { return; }
      var commandword := TrajectoryControlWord(trajectory.Value());
      Send(((commandword & 0xFF00) >> 8) as int, data);
      Send((commandword & 0x00FF) as int, data);
      retval := AwaitReady(board, channel);
    }

    /** One of load_trajectory's `if (trajectory->load_x)` blocks: when the
        flag is set, the magnitude's bytes `(x & 0xFF000000) >> 24` and
        `(x & 0x00FF0000) >> 16`, CHECK_BUSY, its bytes
        `(x & 0x0000FF00) >> 8` and `x & 0x000000FF`, CHECK_BUSY. */
    method SendMagnitude(board: Board, channel: int, load: bool, magnitude: int, ghost rest: seq<Action>) returns (retval: int)
      requires command == CommandPort(board.baseAddress, channel) && data == DataPort(board.baseAddress, channel)
      requires Live() && todo == MagnitudeActions(command, data, load, magnitude) + rest
      modifies io, this`done, this`todo, this`command
      ensures command == old(command) && data == old(data)
      ensures retval == 0 ==> Live() && todo == rest
      ensures retval != 0 ==> retval < 0 && Returned(retval)
    {
      retval := 0;
      if load {
        var q := QuadBytes(magnitude);
        Send(q[0], data);
        Send(q[1], data);
        retval := AwaitReady(board, channel);
        if retval < 0 { return; }
        Send(q[2], data);
        Send(q[3], data);
        retval := AwaitReady(board, channel);
      }
    }

    /** The three magnitude blocks of load_trajectory and its closing
        CHECK_BUSY. */
    method SendMagnitudes(board: Board, channel: int, trajectory: Trajectory) returns (retval: int)
      requires command == CommandPort(board.baseAddress, channel) && data == DataPort(board.baseAddress, channel)
      requires Live()
      requires var t := trajectory.Value();
        todo == MagnitudeActions(command, data, t.loadAcc, t.acc) + (MagnitudeActions(command, data, t.loadVel, t.velocity)
          + (MagnitudeActions(command, data, t.loadPos, t.position) + [CheckBusy(command)]))
      modifies io, this`done, this`todo, this`command
      ensures command == old(command) && data == old(data)
      ensures Returned(retval)
    {
      ghost var t := trajectory.Value();
      ghost var tPos := MagnitudeActions(command, data, t.loadPos, t.position) + [CheckBusy(command)];
      ghost var tVel := MagnitudeActions(command, data, t.loadVel, t.velocity) + tPos;
      retval := SendMagnitude(board, channel, trajectory.loadAcc, trajectory.acc, tVel);
      if retval < 0 { return; }
      retval := SendMagnitude(board, channel, trajectory.loadVel, trajectory.velocity, tPos);
      if retval < 0 { return; }
      retval := SendMagnitude(board, channel, trajectory.loadPos, trajectory.position, [CheckBusy(command)]);
      if retval < 0 { return; }
      retval := AwaitReady(board, channel);
      if retval < 0 { return; }
      End();
      return 0;
    }

    /** start_trajectory: sends STT; once the chip is ready, the channel's
        Trajectory pointer is set to its NewTrajectory record and
        trajectory_started is set. */
    method StartTrajectory(board: Board, channel: int) returns (retval: int)
      modifies this, io, board.ChannelAt(channel)`trajectory, board.ChannelAt(channel)`trajectoryStarted
      ensures command == CommandPort(board.baseAddress, channel) && data == DataPort(board.baseAddress, channel)
      ensures var r := Exec(StartTrajectoryScript(board.baseAddress, channel), old(io.input));
        io.trace == old(io.trace) + r.events && io.input == r.rest && retval == r.retval
      ensures var ch := board.ChannelAt(channel);
        if retval == 0 then ch.trajectory == ch.newTrajectory && ch.trajectoryStarted
        else ch.trajectory == old(ch.trajectory) && ch.trajectoryStarted == old(ch.trajectoryStarted)
      ensures Snapshot(board) == Effect(StartTrajectoryCall(channel), retval == 0, old(Snapshot(board)))
    {
      retval := Commit(board, channel, STT);
      if retval < 0 { return; }
      if channel != 0 {
        board.channel1.trajectory := board.channel1.newTrajectory;
        board.channel1.trajectoryStarted := true;
      } else {
        board.channel0.trajectory := board.channel0.newTrajectory;
        board.channel0.trajectoryStarted := true;
      }
      return 0;
    }

    /** get_status: one read of the channel's command port, with no
        handshake; the ports `command` and `data` are left as they were. */
    method GetStatus(board: Board, channel: int) returns (retval: int, status: int)
      modifies io
      ensures var r := Exec(GetStatusScript(board.baseAddress, channel), old(io.input));
        io.trace == old(io.trace) + r.events && io.input == r.rest && retval == r.retval && r.got == [status]
    {
      GetStatusRun(board.baseAddress, channel, io.input);
      if channel != 0 {
        status := io.Inb(board.baseAddress + COMMAND_1);
      } else {
        status := io.Inb(board.baseAddress + COMMAND_0);
      }
      retval := 0;
    }

    /** get_signals: RDSIGS, then the two bytes of the signals register
        from the data port, high byte first. `signals0` is what `*signals`
        held on entry; a failed check before the reads leaves it. */
    method GetSignals(board: Board, channel: int, signals0: int) returns (retval: int, signals: int)
      modifies this, io
      ensures command == CommandPort(board.baseAddress, channel) && data == DataPort(board.baseAddress, channel)
      ensures var r := Exec(GetSignalsScript(board.baseAddress, channel), old(io.input));
        && io.trace == old(io.trace) + r.events && io.input == r.rest && retval == r.retval
        && signals == SignalsRead(r.got, signals0)
    {
      SelectPorts(board, channel);
      Begin(GetSignalsScript(board.baseAddress, channel));
      retval, signals := ReadSignals(board, channel, signals0);
    }

    /** The opening of get_signals and get_real_position: CHECK_BUSY, the
        read opcode, CHECK_BUSY. */
    method Request(board: Board, channel: int, opcode: int, ghost rest: seq<Action>) returns (retval: int)
      requires command == CommandPort(board.baseAddress, channel) && data == DataPort(board.baseAddress, channel)
      requires Live() && todo == [CheckBusy(command), Out(opcode, command), CheckBusy(command)] + rest
      modifies io, this`done, this`todo, this`command
      ensures command == old(command) && data == old(data)
      ensures retval == 0 ==> Live() && todo == rest && done.got == old(done.got)
      ensures retval != 0 ==> retval < 0 && Returned(retval) && goal.got == old(done.got)
    {
      retval := AwaitReady(board, channel);
      if retval < 0 { return; }
      Send(opcode, command);
      retval := AwaitReady(board, channel);
    }

    /** The bus traffic of get_signals. */
    method ReadSignals(board: Board, channel: int, signals0: int) returns (retval: int, signals: int)
      requires command == CommandPort(board.baseAddress, channel) && data == DataPort(board.baseAddress, channel)
      requires Live() && done.got == [] && todo == GetSignalsScript(board.baseAddress, channel)
      modifies io, this`done, this`todo, this`command
      ensures command == old(command) && data == old(data)
      ensures Returned(retval) && signals == SignalsRead(goal.got, signals0)
    {
      signals := signals0;
      retval := Request(board, channel, RDSIGS, [In(data), In(data), CheckBusy(command)]);
      if retval < 0 { return; }
      var high := Fetch(data);
      signals := high;
      signals := signals * 0x100;
      var low := Fetch(data);
      signals := signals + low;
      retval := AwaitReady(board, channel);
      if retval < 0 { return; }
      End();
      retval := 0;
    }

    /** get_real_position: RDRP, then the four bytes of the real position
        from the data port, most significant first, with a check after
        the second. `position0` is what `*real_position` held on entry. */
    method GetRealPosition(board: Board, channel: int, position0: int) returns (retval: int, position: int)
      modifies this, io
      ensures command == CommandPort(board.baseAddress, channel) && data == DataPort(board.baseAddress, channel)
      ensures var r := Exec(GetRealPositionScript(board.baseAddress, channel), old(io.input));
        && io.trace == old(io.trace) + r.events && io.input == r.rest && retval == r.retval
        && position == PositionRead(r.got, position0)
    {
      SelectPorts(board, channel);
      Begin(GetRealPositionScript(board.baseAddress, channel));
      retval, position := ReadPositionHigh(board, channel, position0);
      if retval < 0 { return; }
      retval, position := ReadPositionLow(board, channel, position0, position);
    }

    /** get_real_position up to the check between the two byte pairs. */
    method ReadPositionHigh(board: Board, channel: int, position0: int) returns (retval: int, position: int)
      requires command == CommandPort(board.baseAddress, channel) && data == DataPort(board.baseAddress, channel)
      requires Live() && done.got == [] && todo == GetRealPositionScript(board.baseAddress, channel)
      modifies io, this`done, this`todo, this`command
      ensures command == old(command) && data == old(data)
      ensures retval == 0 ==>
        && Live() && |done.got| == 2 && position == PositionRead(done.got, position0)
        && todo == [In(data), In(data), CheckBusy(command)]
      ensures retval != 0 ==> retval < 0 && Returned(retval) && position == PositionRead(goal.got, position0)
    {
      position := position0;
      retval := Request(board, channel, RDRP, [In(data), In(data), CheckBusy(command), In(data), In(data), CheckBusy(command)]);
      if retval < 0 { return; }
      var b0 := Fetch(data);
      position := b0;
      position := position * 0x100;
      var b1 := Fetch(data);
      position := position + b1;
      position := position * 0x100;
      retval := AwaitReady(board, channel);
    }

    /** get_real_position from the third byte on. */
    method ReadPositionLow(board: Board, channel: int, ghost position0: int, position2: int) returns (retval: int, position: int)
      requires command == CommandPort(board.baseAddress, channel) && data == DataPort(board.baseAddress, channel)
      requires Live() && |done.got| == 2 && position2 == PositionRead(done.got, position0)
      requires todo == [In(data), In(data), CheckBusy(command)]
      modifies io, this`done, this`todo, this`command
      ensures command == old(command) && data == old(data)
      ensures Returned(retval) && position == PositionRead(goal.got, position0)
    {
      ghost var got := done.got;
      position := position2;
      var b2 := Fetch(data);
      position := position + b2;
      position := position * 0x100;
      var b3 := Fetch(data);
      position := position + b3;
      retval := AwaitReady(board, channel);
      if retval < 0 { return; }
      End();
      retval := 0;
    }

    /** The opening of hard_reset: interrupts off, the interrupt latch
        cleared by a read, the channel's ports selected and its reset line
        held for 200 ms and released for 200 ms. */
    method Pulse(board: Board, channel: int)
      modifies this`command, this`data, io
      ensures command == CommandPort(board.baseAddress, channel) && data == DataPort(board.baseAddress, channel)
      ensures var p := Exec(PulseScript(board.baseAddress, channel), old(io.input));
        io.trace == old(io.trace) + p.events && io.input == p.rest
    {
      PulseRun(board.baseAddress, channel, io.input);
      io.Outb(0x00, board.baseAddress + IRQENABLE);
      var latch := io.Inb(board.baseAddress + CLEARIRQ);
      if channel != 0 {
        command := board.baseAddress + COMMAND_1;
        data := board.baseAddress + DATA_1;
        ResetLine(board, 0x02);
      } else {
        command := board.baseAddress + COMMAND_0;
        data := board.baseAddress + DATA_0;
        ResetLine(board, 0x01);
      }
    }

    /** Drives the reset register to `level` for 200 ms, then back to 0
        for 200 ms. */
    method ResetLine(board: Board, level: int)
      modifies io
      ensures io.trace == old(io.trace) + [Write(board.baseAddress + HARD_RESET, level % 0x100), Delay(200),
                                           Write(board.baseAddress + HARD_RESET, 0x00), Delay(200)]
      ensures io.input == old(io.input)
    {
      io.Outb(level, board.baseAddress + HARD_RESET);
      io.Mdelay(200);
      io.Outb(0x00, board.baseAddress + HARD_RESET);
      io.Mdelay(200);
    }

    /** hard_reset's RSTI step: RSTI, CHECK_BUSY, two zero data bytes,
        CHECK_BUSY. */
    method SendRsti(board: Board, channel: int) returns (retval: int)
      requires command == CommandPort(board.baseAddress, channel) && data == DataPort(board.baseAddress, channel)
      modifies this, io
      ensures command == old(command) && data == old(data)
      ensures var r := Exec(RstiScript(board.baseAddress, channel), old(io.input));
        io.trace == old(io.trace) + r.events && io.input == r.rest && retval == r.retval
    {
      Begin(RstiScript(board.baseAddress, channel));
      retval := SendRstiSteps(board, channel);
    }

    /** The bus traffic of the RSTI step. */
    method SendRstiSteps(board: Board, channel: int) returns (retval: int)
      requires command == CommandPort(board.baseAddress, channel) && data == DataPort(board.baseAddress, channel)
      requires Live() && todo == RstiScript(board.baseAddress, channel)
      modifies io, this`done, this`todo, this`command
      ensures command == old(command) && data == old(data)
      ensures Returned(retval)
    {
      Send(RSTI, command);
      retval := AwaitReady(board, channel);
      if retval < 0 { return; }
      Send(0x00, data);
      Send(0x00, data);
      retval := AwaitReady(board, channel);
      if retval < 0 { return; }
      End();
      return 0;
    }

    /** hard_reset: pulses the channel's reset line and reads the status;
        a status other than 0xC4 or 0x84 makes it call itself, ignore what
        that call returns and go on (`RetryReset`); then RSTI and the rest
        (`FinishReset`). A device that answers wrongly for ever makes the C
        routine recurse without end; the precondition excludes such a
        device. */
    method HardReset(board: Board, channel: int) returns (retval: int)
      requires HardResetRun(board.baseAddress, channel, io.input).Returns?
      modifies this, io
      decreases |io.input|, 3
      ensures command == CommandPort(board.baseAddress, channel) && data == DataPort(board.baseAddress, channel)
      ensures var r := HardResetRun(board.baseAddress, channel, old(io.input)).run;
        io.trace == old(io.trace) + r.events && io.input == r.rest && retval == r.retval
    {
      ghost var input, before := io.input, io.trace;
      ghost var p := Exec(PulseScript(board.baseAddress, channel), input);
      ghost var pulsed := ThenStatus(p, CommandPort(board.baseAddress, channel));
      Pulse(board, channel);
      retval := io.Inb(command);
      assert io.trace == before + pulsed.events && io.input == pulsed.rest;
      if retval != 0xC4 && retval != 0x84 {
        RetryReset(board, channel, before, pulsed, |input|);
      }
      retval := FinishReset(board, channel, before, Retry(board.baseAddress, channel, pulsed, PulseStatusOk(Next(p.rest)), |input|).run, |input|);
    }

    /** The call hard_reset makes to itself after a wrong status, with the
        result ignored. `ready` is what the routine, started on `bound`
        responses, has done so far after `before`. */
    method RetryReset(board: Board, channel: int, ghost before: seq<Event>, ghost ready: Run, ghost bound: nat)
      requires io.trace == before + ready.events && io.input == ready.rest
      requires Retry(board.baseAddress, channel, ready, false, bound).Returns?
      modifies this, io
      decreases bound, 0
      ensures command == CommandPort(board.baseAddress, channel) && data == DataPort(board.baseAddress, channel)
      ensures var a := Retry(board.baseAddress, channel, ready, false, bound).run;
        io.trace == before + a.events && io.input == a.rest
    {
      var ignored := HardReset(board, channel);
    }

    /** The rest of hard_reset after `a`: RSTI, then `ConfirmReset`. */
    method FinishReset(board: Board, channel: int, ghost before: seq<Event>, ghost a: Run, ghost bound: nat)
      returns (retval: int)
      requires command == CommandPort(board.baseAddress, channel) && data == DataPort(board.baseAddress, channel)
      requires io.trace == before + a.events && io.input == a.rest
      requires RstiStage(board.baseAddress, channel, a, bound).Returns?
      modifies this, io
      decreases bound, 2
      ensures command == CommandPort(board.baseAddress, channel) && data == DataPort(board.baseAddress, channel)
      ensures var r := RstiStage(board.baseAddress, channel, a, bound).run;
        io.trace == before + r.events && io.input == r.rest && retval == r.retval
    {
      ghost var r := Exec(RstiScript(board.baseAddress, channel), a.rest);
      retval := SendRsti(board, channel);
      if retval < 0 { return; }
      retval := ConfirmReset(board, channel, before, Then(a, r), bound);
    }

    /** The end of hard_reset after a successful RSTI: the status read, on
        a status other than 0xC0 or 0x80 the retry, and the last
        CHECK_BUSY, whose result hard_reset returns. */
    method ConfirmReset(board: Board, channel: int, ghost before: seq<Event>, ghost a: Run, ghost bound: nat)
      returns (retval: int)
      requires command == CommandPort(board.baseAddress, channel) && data == DataPort(board.baseAddress, channel)
      requires io.trace == before + a.events && io.input == a.rest
      requires ConfirmStage(board.baseAddress, channel, a, bound).Returns?
      modifies this, io
      decreases bound, 1
      ensures command == CommandPort(board.baseAddress, channel) && data == DataPort(board.baseAddress, channel)
      ensures var r := ConfirmStage(board.baseAddress, channel, a, bound).run;
        io.trace == before + r.events && io.input == r.rest && retval == r.retval
    {
      ghost var cmd := CommandPort(board.baseAddress, channel);
      ghost var ready := ThenStatus(a, cmd);
      retval := io.Inb(command);
      assert io.trace == before + ready.events && io.input == ready.rest;
      if retval != 0xC0 && retval != 0x80 {
        RetryReset(board, channel, before, ready, bound);
      }
      ghost var b := Retry(board.baseAddress, channel, ready, RstiStatusOk(Next(a.rest)), bound).run;
      assert io.trace == before + b.events && io.input == b.rest;
      retval := CheckBusyBit(board, channel);
      if retval < 0 { return; }
      return 0;
    }

    /** init_board: resets channel 0 and channel 1, then loads both
        filters, commits both, loads both trajectories and starts both,
        returning the first negative value any call returns. The channel
        structs end as the calls that ran leave them; when it returns 0
        every channel runs its pending filter and trajectory. */
    method InitBoard(board: Board) returns (retval: int)
      requires InitBoardRun(SetupOf(board), io.input).Returns?
      modifies this, io
      modifies board.channel0`filter, board.channel0`filterUpdated, board.channel1`filter, board.channel1`filterUpdated
      modifies board.channel0`trajectory, board.channel0`trajectoryStarted
      modifies board.channel1`trajectory, board.channel1`trajectoryStarted
      ensures Ran(old(io.trace), InitBoardRun(old(SetupOf(board)), old(io.input)).run, retval)
      ensures Snapshot(board) == Effects(old(SetupOf(board)), InitOrder, old(io.input), old(Snapshot(board)))
      ensures retval == 0 ==> Running(board.channel0) && Running(board.channel1)
    {
      ghost var s, before, st := SetupOf(board), io.trace, Snapshot(board);
      InitBoardSteps(s, io.input);
      InitOrderParts();
      ghost var r0 := HardResetRun(board.baseAddress, 0, io.input).run;
      ResetFirst(s, InitOrder, io.input, st, r0);
      retval := HardReset(board, 0);
      if retval < 0 { return; }
      ghost var r1 := HardResetRun(board.baseAddress, 1, io.input).run;
      ResetFirst(s, InitOrder[1..], io.input, st, r1);
      retval := HardReset(board, 1);
      EventsAppend(before, r0.events, r1.events);
      if retval < 0 { return; }
      ghost var rest := Exec(InitScript(s), io.input);
      retval := Configure(board, s);
      EventsAppend(before + r0.events, r1.events, rest.events);
      EventsAppend(before, r0.events, r1.events + rest.events);
    }

    /** The eight calls of init_board after the resets. */
    method Configure(board: Board, ghost s: Setup) returns (retval: int)
      requires s == SetupOf(board)
      modifies this, io
      modifies board.channel0`filter, board.channel0`filterUpdated, board.channel1`filter, board.channel1`filterUpdated
      modifies board.channel0`trajectory, board.channel0`trajectoryStarted
      modifies board.channel1`trajectory, board.channel1`trajectoryStarted
      ensures Ran(old(io.trace), Exec(InitScript(s), old(io.input)), retval)
      ensures Snapshot(board) == Effects(s, InitOrder[2..], old(io.input), old(Snapshot(board)))
      ensures retval == 0 ==> Running(board.channel0) && Running(board.channel1)
    {
      ghost var before, input, st := io.trace, io.input, Snapshot(board);
      SetupSplit(s, io.input, st);
      ghost var f := Exec(FilterSetupScript(s), io.input);
      retval := SetFilters(board, s);
      if retval < 0 { return; }
      ghost var t := Exec(TrajectorySetupScript(s), io.input);
      retval := SetTrajectories(board, s);
      EventsAppend(before, f.events, t.events);
      if retval == 0 {
        SetupSucceeds(s, input, st);
        RunningOf(board);
      }
    }

    /** load_filter on both channels, then update_filter on both. */
    method SetFilters(board: Board, ghost s: Setup) returns (retval: int)
      requires s == SetupOf(board)
      modifies this, io
      modifies board.channel0`filter, board.channel0`filterUpdated, board.channel1`filter, board.channel1`filterUpdated
      ensures SetupOf(board) == s
      ensures Ran(old(io.trace), Exec(FilterSetupScript(s), old(io.input)), retval)
      ensures Snapshot(board) == Effects(s, FilterCalls, old(io.input), old(Snapshot(board)))
      ensures retval == 0 ==> FilterCommitted(board.channel0) && FilterCommitted(board.channel1)
    {
      ghost var before, st := io.trace, Snapshot(board);
      ghost var l := LoadFilterScript(s.base, 0, s.filter0) + LoadFilterScript(s.base, 1, s.filter1);
      ghost var u := UpdateFilterScript(s.base, 0) + UpdateFilterScript(s.base, 1);
      FilterSetupSplit(s, io.input, st);
      ghost var r := Exec(l, io.input);
      retval := LoadFilters(board, s);
      if retval < 0 { return; }
      ghost var q := Exec(u, io.input);
      retval := UpdateFilters(board, s);
      EventsAppend(before, r.events, q.events);
    }

    /** load_filter on channel 0, then on channel 1: each clears its
        channel's filter_updated, the second only if the first succeeded. */
    method LoadFilters(board: Board, ghost s: Setup) returns (retval: int)
      requires s == SetupOf(board)
      modifies this, io
      modifies board.channel0`filterUpdated, board.channel1`filterUpdated
      ensures SetupOf(board) == s
      ensures Ran(old(io.trace), Exec(LoadFilterScript(s.base, 0, s.filter0) + LoadFilterScript(s.base, 1, s.filter1), old(io.input)), retval)
      ensures Snapshot(board) == Effects(s, [LoadFilterCall(0), LoadFilterCall(1)], old(io.input), old(Snapshot(board)))
    {
      ghost var before, input, st := io.trace, io.input, Snapshot(board);
      EffectsPair(s, LoadFilterCall(0), LoadFilterCall(1), input, st);
      ExecAppend(CallScript(s, LoadFilterCall(0)), CallScript(s, LoadFilterCall(1)), input);
      ghost var r := Exec(CallScript(s, LoadFilterCall(0)), input);
      retval := PerformLoadFilter(board, 0, s);
      if retval < 0 { return; }
      ghost var q := Exec(CallScript(s, LoadFilterCall(1)), io.input);
      retval := PerformLoadFilter(board, 1, s);
      EventsAppend(before, r.events, q.events);
    }

    /** update_filter on channel 0, then on channel 1. */
    method UpdateFilters(board: Board, ghost s: Setup) returns (retval: int)
      requires s == SetupOf(board)
      modifies this, io
      modifies board.channel0`filter, board.channel0`filterUpdated, board.channel1`filter, board.channel1`filterUpdated
      ensures SetupOf(board) == s
      ensures Ran(old(io.trace), Exec(UpdateFilterScript(s.base, 0) + UpdateFilterScript(s.base, 1), old(io.input)), retval)
      ensures Snapshot(board) == Effects(s, [UpdateFilterCall(0), UpdateFilterCall(1)], old(io.input), old(Snapshot(board)))
      ensures retval == 0 ==> FilterCommitted(board.channel0) && FilterCommitted(board.channel1)
    {
      ghost var before, input, st := io.trace, io.input, Snapshot(board);
      EffectsPair(s, UpdateFilterCall(0), UpdateFilterCall(1), input, st);
      ExecAppend(CallScript(s, UpdateFilterCall(0)), CallScript(s, UpdateFilterCall(1)), input);
      ghost var r := Exec(CallScript(s, UpdateFilterCall(0)), input);
      retval := PerformUpdateFilter(board, 0, s);
      if retval < 0 { return; }
      ghost var q := Exec(CallScript(s, UpdateFilterCall(1)), io.input);
      retval := PerformUpdateFilter(board, 1, s);
      EventsAppend(before, r.events, q.events);
      if retval == 0 {
        PairSucceeds(s, UpdateFilterCall(0), UpdateFilterCall(1), input, st);
      }
    }

    /** load_trajectory on both channels, then start_trajectory on both. */
    method SetTrajectories(board: Board, ghost s: Setup) returns (retval: int)
      requires s == SetupOf(board)
      modifies this, io
      modifies board.channel0`trajectory, board.channel0`trajectoryStarted, board.channel1`trajectory, board.channel1`trajectoryStarted
      ensures SetupOf(board) == s
      ensures Ran(old(io.trace), Exec(TrajectorySetupScript(s), old(io.input)), retval)
      ensures Snapshot(board) == Effects(s, TrajectoryCalls, old(io.input), old(Snapshot(board)))
      ensures retval == 0 ==> TrajectoryStarted(board.channel0) && TrajectoryStarted(board.channel1)
    {
      ghost var before, st := io.trace, Snapshot(board);
      ghost var l := LoadTrajectoryScript(s.base, 0, s.trajectory0) + LoadTrajectoryScript(s.base, 1, s.trajectory1);
      ghost var t := StartTrajectoryScript(s.base, 0) + StartTrajectoryScript(s.base, 1);
      TrajectorySetupSplit(s, io.input, st);
      ghost var r := Exec(l, io.input);
      retval := LoadTrajectories(board, s);
      if retval < 0 { return; }
      ghost var q := Exec(t, io.input);
      retval := StartTrajectories(board, s);
      EventsAppend(before, r.events, q.events);
    }

    /** load_trajectory on channel 0, then on channel 1: each clears its
        channel's trajectory_started, the second only if the first
        succeeded. */
    method LoadTrajectories(board: Board, ghost s: Setup) returns (retval: int)
      requires s == SetupOf(board)
      modifies this, io
      modifies board.channel0`trajectoryStarted, board.channel1`trajectoryStarted
      ensures SetupOf(board) == s
      ensures Ran(old(io.trace), Exec(LoadTrajectoryScript(s.base, 0, s.trajectory0) + LoadTrajectoryScript(s.base, 1, s.trajectory1), old(io.input)), retval)
      ensures Snapshot(board) == Effects(s, [LoadTrajectoryCall(0), LoadTrajectoryCall(1)], old(io.input), old(Snapshot(board)))
    {
      ghost var before, input, st := io.trace, io.input, Snapshot(board);
      EffectsPair(s, LoadTrajectoryCall(0), LoadTrajectoryCall(1), input, st);
      ExecAppend(CallScript(s, LoadTrajectoryCall(0)), CallScript(s, LoadTrajectoryCall(1)), input);
      ghost var r := Exec(CallScript(s, LoadTrajectoryCall(0)), input);
      retval := PerformLoadTrajectory(board, 0, s);
      if retval < 0 { return; }
      ghost var q := Exec(CallScript(s, LoadTrajectoryCall(1)), io.input);
      retval := PerformLoadTrajectory(board, 1, s);
      EventsAppend(before, r.events, q.events);
    }

    /** start_trajectory on channel 0, then on channel 1. */
    method StartTrajectories(board: Board, ghost s: Setup) returns (retval: int)
      requires s == SetupOf(board)
      modifies this, io
      modifies board.channel0`trajectory, board.channel0`trajectoryStarted, board.channel1`trajectory, board.channel1`trajectoryStarted
      ensures SetupOf(board) == s
      ensures Ran(old(io.trace), Exec(StartTrajectoryScript(s.base, 0) + StartTrajectoryScript(s.base, 1), old(io.input)), retval)
      ensures Snapshot(board) == Effects(s, [StartTrajectoryCall(0), StartTrajectoryCall(1)], old(io.input), old(Snapshot(board)))
      ensures retval == 0 ==> TrajectoryStarted(board.channel0) && TrajectoryStarted(board.channel1)
    {
      ghost var before, input, st := io.trace, io.input, Snapshot(board);
      EffectsPair(s, StartTrajectoryCall(0), StartTrajectoryCall(1), input, st);
      ExecAppend(CallScript(s, StartTrajectoryCall(0)), CallScript(s, StartTrajectoryCall(1)), input);
      ghost var r := Exec(CallScript(s, StartTrajectoryCall(0)), input);
      retval := PerformStartTrajectory(board, 0, s);
      if retval < 0 { return; }
      ghost var q := Exec(CallScript(s, StartTrajectoryCall(1)), io.input);
      retval := PerformStartTrajectory(board, 1, s);
      EventsAppend(before, r.events, q.events);
      if retval == 0 {
        PairSucceeds(s, StartTrajectoryCall(0), StartTrajectoryCall(1), input, st);
      }
    }

    /** One load_filter call as init_board makes it; the board's pending records are unchanged. */
    method PerformLoadFilter(board: Board, channel: int, ghost s: Setup) returns (retval: int)
      requires s == SetupOf(board)
      modifies this, io, board.channel0`filterUpdated, board.channel1`filterUpdated
      ensures SetupOf(board) == s
      ensures Ran(old(io.trace), Exec(CallScript(s, LoadFilterCall(channel)), old(io.input)), retval)
      ensures Snapshot(board) == Effect(LoadFilterCall(channel), retval == 0, old(Snapshot(board)))
    {
      retval := LoadFilter(board, channel);
      SetupKept(board);
    }

    /** One update_filter call as init_board makes it; the board's pending records are unchanged. */
    method PerformUpdateFilter(board: Board, channel: int, ghost s: Setup) returns (retval: int)
      requires s == SetupOf(board)
      modifies this, io, board.channel0`filter, board.channel0`filterUpdated, board.channel1`filter, board.channel1`filterUpdated
      ensures SetupOf(board) == s
      ensures Ran(old(io.trace), Exec(CallScript(s, UpdateFilterCall(channel)), old(io.input)), retval)
      ensures Snapshot(board) == Effect(UpdateFilterCall(channel), retval == 0, old(Snapshot(board)))
    {
      retval := UpdateFilter(board, channel);
      SetupKept(board);
    }

    /** One load_trajectory call as init_board makes it; the board's pending records are unchanged. */
    method PerformLoadTrajectory(board: Board, channel: int, ghost s: Setup) returns (retval: int)
      requires s == SetupOf(board)
      modifies this, io, board.channel0`trajectoryStarted, board.channel1`trajectoryStarted
      ensures SetupOf(board) == s
      ensures Ran(old(io.trace), Exec(CallScript(s, LoadTrajectoryCall(channel)), old(io.input)), retval)
      ensures Snapshot(board) == Effect(LoadTrajectoryCall(channel), retval == 0, old(Snapshot(board)))
    {
      retval := LoadTrajectory(board, channel);
      SetupKept(board);
    }

    /** One start_trajectory call as init_board makes it; the board's pending records are unchanged. */
    method PerformStartTrajectory(board: Board, channel: int, ghost s: Setup) returns (retval: int)
      requires s == SetupOf(board)
      modifies this, io, board.channel0`trajectory, board.channel0`trajectoryStarted, board.channel1`trajectory, board.channel1`trajectoryStarted
      ensures SetupOf(board) == s
      ensures Ran(old(io.trace), Exec(CallScript(s, StartTrajectoryCall(channel)), old(io.input)), retval)
      ensures Snapshot(board) == Effect(StartTrajectoryCall(channel), retval == 0, old(Snapshot(board)))
    {
      retval := StartTrajectory(board, channel);
      SetupKept(board);
    }
  }
}
