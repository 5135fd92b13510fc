/** Bringing a board up: hard_reset, which pulses a channel's reset line
    and retries itself whenever the chip reports an unexpected status, and
    init_board, which resets both channels and loads and starts their
    filters and trajectories, stopping at the first call that fails. */
module Startup {
  import opened Registers
  import opened Protocol
  import opened Encoding
  import opened Commands

  // ---------------------------------------------------------------------
  // hard_reset
  // ---------------------------------------------------------------------

  /** Interrupts off, the interrupt latch cleared by a read, then the
      channel's reset line (bit 0 for channel 0, bit 1 for channel 1) held
      for 200 ms and released for 200 ms. */
  function PulseScript(base: int, channel: int): seq<Action>
  {
    [Out(0x00, base + IRQENABLE), In(base + CLEARIRQ)]
    + LineScript(base, if channel != 0 then 0x02 else 0x01)
  }

  /** RSTI, a check, two zero data bytes, a check. */
  function RstiScript(base: int, channel: int): seq<Action>
  {
    var cmd, data := CommandPort(base, channel), DataPort(base, channel);
    [Out(RSTI, cmd), CheckBusy(cmd), Out(0x00, data), Out(0x00, data), CheckBusy(cmd)]
  }

  /** The statuses hard_reset accepts right after the pulse: the motor off
      and the trajectory complete, with or without the breakpoint flag, and
      no other flag (so in particular the chip is not busy). */
  function PulseStatusOk(status: Byte): (ok: bool)
    ensures ok <==> (status as bv8) & !BREAKPOINT_REACHED == MOTOR_OFF | TRAJECTORY_COMPLETE
    ensures ok ==> !Busy(status)
  {
    status == 0xC4 || status == 0x84
  }

  /** The statuses hard_reset accepts after RSTI: the motor off, with or
      without the breakpoint flag, and no other flag. */
  function RstiStatusOk(status: Byte): (ok: bool)
    ensures ok <==> (status as bv8) & !BREAKPOINT_REACHED == MOTOR_OFF
    ensures ok ==> !Busy(status)
  {
    status == 0xC0 || status == 0x80
  }

  /** A routine that may not return: hard_reset calls itself again for as
      long as the chip answers with a wrong status. */
  datatype Outcome = Diverges | Returns(run: Run)

  /** `a`, then whatever the routine with outcome `o` does. */
  function Chain(a: Run, o: Outcome): Outcome
  {
    match o
    case Diverges => Diverges
    case Returns(b) => Returns(Then(a, b))
  }

  /** `a`, then a retry whose return value is thrown away. */
  function Resume(a: Run, o: Outcome): Outcome
  {
    match o
    case Diverges => Diverges
    case Returns(b) => Returns(Run(a.events + b.events, a.got + b.got, b.rest, 0))
  }

  /** `a` followed by `inb(command)`. */
  function ThenStatus(a: Run, cmd: int): Run
  {
    Then(a, Step(In(cmd), a.rest))
  }

  /** What hard_reset does against a device whose responses are `input`.
      A wrong status after the pulse or after RSTI makes it call itself,
      ignore what that call returns and carry on. Once the responses have
      run out every read floats to 0xFF, which is never an accepted status,
      so the routine would call itself for ever: that is `Diverges`. */
  function HardResetRun(base: int, channel: int, input: seq<Byte>): (o: Outcome)
    ensures input == [] ==> o == Diverges
    decreases |input|, 3
  {
    PulseRun(base, channel, input);
    var p := Exec(PulseScript(base, channel), input);
    match Retry(base, channel, ThenStatus(p, CommandPort(base, channel)), PulseStatusOk(Next(p.rest)), |input|)
    case Diverges => Diverges
    case Returns(a) => RstiStage(base, channel, a, |input|)
  }

  /** The second part of hard_reset, after `a`: RSTI, the status read and
      its retry, then the last CHECK_BUSY. `bound` is the length of the
      responses the whole routine started from. */
  function RstiStage(base: int, channel: int, a: Run, bound: nat): Outcome
    decreases bound, 2
  {
    var r := Exec(RstiScript(base, channel), a.rest);
    if r.retval < 0 then Returns(Then(a, r))
    else ConfirmStage(base, channel, Then(a, r), bound)
  }

  /** The end of hard_reset, after RSTI has succeeded at the end of `a`:
      the status read and its retry, then the last CHECK_BUSY. */
  function ConfirmStage(base: int, channel: int, a: Run, bound: nat): Outcome
    decreases bound, 1
  {
    var cmd := CommandPort(base, channel);
    match Retry(base, channel, ThenStatus(a, cmd), RstiStatusOk(Next(a.rest)), bound)
    case Diverges => Diverges
    case Returns(b) => Returns(Then(b, Handshake(cmd, b.rest)))
  }

  /** After the status read that ends `ready`: nothing more when the status
      was accepted (`ok`), otherwise a whole hard_reset whose result is
      ignored, unless no response has been consumed since the routine
      started from `bound` responses. */
  function Retry(base: int, channel: int, ready: Run, ok: bool, bound: nat): Outcome
    decreases bound, 0
  {
    if ok then Returns(ready)
    else if |ready.rest| < bound then Resume(ready, HardResetRun(base, channel, ready.rest))
    else Diverges
  }

  /** The bus events of the pulse, `clear` being what the latch read got. */
  function PulseEvents(base: int, channel: int, clear: Byte): seq<Event>
  {
    [Write(base + IRQENABLE, 0x00), Read(base + CLEARIRQ, clear),
     Write(base + HARD_RESET, if channel != 0 then 0x02 else 0x01), Delay(200),
     Write(base + HARD_RESET, 0x00), Delay(200)]
  }

  /** The bus events of RSTI when both checks see a ready chip at once. */
  function RstiEvents(base: int, channel: int, s1: Byte, s2: Byte): seq<Event>
  {
    var cmd, data := CommandPort(base, channel), DataPort(base, channel);
    [Write(cmd, RSTI), Read(cmd, s1), Write(data, 0x00), Write(data, 0x00), Read(cmd, s2)]
  }

  /** The pulse never fails; it reads the interrupt latch once, so it
      always consumes a response when there is one. */
  lemma PulseRun(base: int, channel: int, input: seq<Byte>)
    ensures var r := Exec(PulseScript(base, channel), input);
      && r.events == PulseEvents(base, channel, Next(input))
      && r.got == [Next(input)] && r.rest == Drop(input) && r.retval == 0
  {
    var s, i1 := PulseScript(base, channel), Drop(input);
    var line := Exec(s[2..], i1);
    LineRun(base, if channel != 0 then 0x02 else 0x01, i1);
    assert s[2..] == LineScript(base, if channel != 0 then 0x02 else 0x01);
    UnfoldExec(s[1..], input);
    UnfoldExec(s, input);
    var e0, e1 := Write(base + IRQENABLE, 0x00), Read(base + CLEARIRQ, Next(input));
    assert Exec(s, input).events == [e0] + ([e1] + line.events);
    assert [e0] + ([e1] + line.events) == PulseEvents(base, channel, Next(input));
  }

  /** The reset line raised to `level`, held 200 ms, dropped, held 200 ms. */
  function LineScript(base: int, level: int): seq<Action>
  {
    [Out(level, base + HARD_RESET), Pause(200), Out(0x00, base + HARD_RESET), Pause(200)]
  }

  lemma LineRun(base: int, level: Byte, input: seq<Byte>)
    ensures Exec(LineScript(base, level), input)
            == Run([Write(base + HARD_RESET, level), Delay(200), Write(base + HARD_RESET, 0x00), Delay(200)], [], input, 0)
  {
    var s := LineScript(base, level);
    UnfoldExec(s[4..], input);
    UnfoldExec(s[3..], input);
    UnfoldExec(s[2..], input);
    UnfoldExec(s[1..], input);
    UnfoldExec(s, input);
  }

  /** RSTI against a chip that is ready at both checks. */
  lemma RstiRun(base: int, channel: int, input: seq<Byte>)
    requires !Busy(Next(input)) && !Busy(Next(Drop(input)))
    ensures var r := Exec(RstiScript(base, channel), input);
      && r.events == RstiEvents(base, channel, Next(input), Next(Drop(input)))
      && r.rest == Drop(Drop(input)) && r.retval == 0
  {
    var s, i1, i2 := RstiScript(base, channel), Drop(input), Drop(Drop(input));
    UnfoldExec(s[5..], i2);
    UnfoldExec(s[4..], i1);
    UnfoldExec(s[3..], i1);
    UnfoldExec(s[2..], i1);
    UnfoldExec(s[1..], input);
    UnfoldExec(s, input);
  }

  /** The retry guard only ever stops a recursion on an exhausted device:
      while responses remain, each attempt consumes at least one. */
  lemma AttemptConsumes(base: int, channel: int, input: seq<Byte>)
    requires input != []
    ensures |ThenStatus(Exec(PulseScript(base, channel), input), CommandPort(base, channel)).rest| < |input|
  {
    PulseRun(base, channel, input);
  }

  /** hard_reset returns 0 or -EBUSY, the result of its own last handshake
      and never of a retry. */
  lemma HardResetRetval(base: int, channel: int, input: seq<Byte>)
    requires HardResetRun(base, channel, input).Returns?
    ensures var r := HardResetRun(base, channel, input).run;
      r.retval == 0 || r.retval == -EBUSY
  {
    var p := Exec(PulseScript(base, channel), input);
    var a := Retry(base, channel, ThenStatus(p, CommandPort(base, channel)), PulseStatusOk(Next(p.rest)), |input|).run;
    assert HardResetRun(base, channel, input) == RstiStage(base, channel, a, |input|);
    var r := Exec(RstiScript(base, channel), a.rest);
    if r.retval >= 0 {
      var cmd := CommandPort(base, channel);
      var ready := ThenStatus(Then(a, r), cmd);
      assert HardResetRun(base, channel, input) == ConfirmStage(base, channel, Then(a, r), |input|);
      assert Retry(base, channel, ready, RstiStatusOk(Next(r.rest)), |input|).Returns?;
      var b := Retry(base, channel, ready, RstiStatusOk(Next(r.rest)), |input|).run;
      assert HardResetRun(base, channel, input) == Returns(Then(b, Handshake(cmd, b.rest)));
    }
  }

  /** A chip that accepts the pulse and RSTI and is ready at every check. */
  predicate Healthy(input: seq<Byte>)
  {
    var i1 := Drop(input); var i2 := Drop(i1); var i3 := Drop(i2);
    var i4 := Drop(i3); var i5 := Drop(i4);
    && PulseStatusOk(Next(i1)) && !Busy(Next(i2)) && !Busy(Next(i3))
    && RstiStatusOk(Next(i4)) && !Busy(Next(i5))
  }

  /** The bus events of a hard reset of a healthy chip. */
  function HealthyEvents(base: int, channel: int, input: seq<Byte>): seq<Event>
  {
    var cmd := CommandPort(base, channel);
    var i1 := Drop(input); var i2 := Drop(i1); var i3 := Drop(i2);
    var i4 := Drop(i3); var i5 := Drop(i4);
    PulseEvents(base, channel, Next(input)) + [Read(cmd, Next(i1))]
    + RstiEvents(base, channel, Next(i2), Next(i3)) + [Read(cmd, Next(i4)), Read(cmd, Next(i5))]
  }

  /** A healthy chip is reset in one attempt, which returns 0. */
  lemma HardResetHealthyRun(base: int, channel: int, input: seq<Byte>)
    requires Healthy(input)
    ensures var o := HardResetRun(base, channel, input);
      && o.Returns? && o.run.retval == 0
      && o.run.events == HealthyEvents(base, channel, input)
      && o.run.rest == Drop(Drop(Drop(Drop(Drop(Drop(input))))))
  {
    var cmd := CommandPort(base, channel);
    var i1 := Drop(input);
    var i2 := Drop(i1);
    var i4 := Drop(Drop(i2));
    PulseRun(base, channel, input);
    RstiRun(base, channel, i2);
    var pulsed := ThenStatus(Exec(PulseScript(base, channel), input), cmd);
    assert HardResetRun(base, channel, input) == RstiStage(base, channel, pulsed, |input|);
    var rsti := Then(pulsed, Exec(RstiScript(base, channel), i2));
    assert RstiStage(base, channel, pulsed, |input|) == ConfirmStage(base, channel, rsti, |input|);
    var ready := ThenStatus(rsti, cmd);
    assert ConfirmStage(base, channel, rsti, |input|) == Returns(Then(ready, Handshake(cmd, ready.rest)));
  }

  lemma PulseWrites(base: int, channel: int, clear: Byte)
    ensures AllWrites(PulseEvents(base, channel, clear))
            == [Write(base + IRQENABLE, 0x00), Write(base + HARD_RESET, if channel != 0 then 0x02 else 0x01),
                Write(base + HARD_RESET, 0x00)]
  {
    var e := PulseEvents(base, channel, clear);
    UnfoldAllWrites(e[6..]);
    UnfoldAllWrites(e[5..]);
    UnfoldAllWrites(e[4..]);
    UnfoldAllWrites(e[3..]);
    UnfoldAllWrites(e[2..]);
    UnfoldAllWrites(e[1..]);
    UnfoldAllWrites(e);
  }

  lemma RstiWrites(base: int, channel: int, s1: Byte, s2: Byte)
    ensures AllWrites(RstiEvents(base, channel, s1, s2))
            == [Write(CommandPort(base, channel), RSTI), Write(DataPort(base, channel), 0x00),
                Write(DataPort(base, channel), 0x00)]
  {
    var e := RstiEvents(base, channel, s1, s2);
    UnfoldAllWrites(e[5..]);
    UnfoldAllWrites(e[4..]);
    UnfoldAllWrites(e[3..]);
    UnfoldAllWrites(e[2..]);
    UnfoldAllWrites(e[1..]);
    UnfoldAllWrites(e);
  }

  lemma ReadsWriteNothing(port: int, a: Byte, b: Byte)
    ensures AllWrites([Read(port, a)]) == [] && AllWrites([Read(port, a), Read(port, b)]) == []
  {
    var e := [Read(port, a), Read(port, b)];
    UnfoldAllWrites(e[2..]);
    UnfoldAllWrites(e[1..]);
    UnfoldAllWrites(e);
    UnfoldAllWrites([Read(port, a)]);
  }

  /** Of those events, the writes: interrupts off, the pulse, its release,
      RSTI and the two zero data bytes. */
  lemma HealthyWrites(base: int, channel: int, input: seq<Byte>)
    ensures var cmd, data := CommandPort(base, channel), DataPort(base, channel);
      AllWrites(HealthyEvents(base, channel, input))
      == [Write(base + IRQENABLE, 0x00), Write(base + HARD_RESET, if channel != 0 then 0x02 else 0x01),
          Write(base + HARD_RESET, 0x00), Write(cmd, RSTI), Write(data, 0x00), Write(data, 0x00)]
  {
    var cmd := CommandPort(base, channel);
    var i1 := Drop(input); var i2 := Drop(i1); var i3 := Drop(i2);
    var i4 := Drop(i3); var i5 := Drop(i4);
    var p, q := PulseEvents(base, channel, Next(input)), RstiEvents(base, channel, Next(i2), Next(i3));
    var r1, r2 := [Read(cmd, Next(i1))], [Read(cmd, Next(i4)), Read(cmd, Next(i5))];
    PulseWrites(base, channel, Next(input));
    RstiWrites(base, channel, Next(i2), Next(i3));
    ReadsWriteNothing(cmd, Next(i1), Next(i1));
    ReadsWriteNothing(cmd, Next(i4), Next(i5));
    AllWritesAppend(p, r1);
    AllWritesAppend(p + r1, q);
    AllWritesAppend(p + r1 + q, r2);
  }

  /** A wrong status after the pulse, with responses left, makes
      hard_reset run again on the remaining responses: it returns only if
      that retry returns, and its bus events begin with the pulse, the
      status read and the whole retry, whatever the retry returned. */
  lemma HardResetRetries(base: int, channel: int, input: seq<Byte>)
    requires input != [] && !PulseStatusOk(Next(Drop(input)))
    ensures var cmd, rest := CommandPort(base, channel), Drop(Drop(input));
      var o, inner := HardResetRun(base, channel, input), HardResetRun(base, channel, rest);
      && (o.Returns? ==> inner.Returns?)
      && (o.Returns? ==>
            PulseEvents(base, channel, Next(input)) + [Read(cmd, Next(Drop(input)))] + inner.run.events
            <= o.run.events)
  {
    PulseRun(base, channel, input);
    var cmd := CommandPort(base, channel);
    var o := HardResetRun(base, channel, input);
    var inner := HardResetRun(base, channel, Drop(Drop(input)));
    var pulsed := ThenStatus(Exec(PulseScript(base, channel), input), cmd);
    assert pulsed.rest == Drop(Drop(input));
    assert Retry(base, channel, pulsed, false, |input|) == Resume(pulsed, inner);
    if o.Returns? {
      assert inner.Returns?;
      var head := PulseEvents(base, channel, Next(input)) + [Read(cmd, Next(Drop(input)))];
      assert pulsed.events == head;
      var a := Resume(pulsed, inner).run;
      assert o == RstiStage(base, channel, a, |input|);
      var r := Exec(RstiScript(base, channel), a.rest);
      if r.retval >= 0 {
        assert o == ConfirmStage(base, channel, Then(a, r), |input|);
        var ready := ThenStatus(Then(a, r), cmd);
        assert head + inner.run.events <= ready.events;
        var b := Retry(base, channel, ready, RstiStatusOk(Next(r.rest)), |input|).run;
        assert ready.events <= b.events;
        assert o.run == Then(b, Handshake(cmd, b.rest));
      }
    }
  }

  // ---------------------------------------------------------------------
  // init_board
  // ---------------------------------------------------------------------

  /** One driver routine called on one channel. */
  datatype Call =
    | HardResetCall(channel: int)
    | LoadFilterCall(channel: int)
    | UpdateFilterCall(channel: int)
    | LoadTrajectoryCall(channel: int)
    | StartTrajectoryCall(channel: int)

  /** The calls init_board makes, in order. */
  const InitOrder: seq<Call> := [
    HardResetCall(0), HardResetCall(1),
    LoadFilterCall(0), LoadFilterCall(1),
    UpdateFilterCall(0), UpdateFilterCall(1),
    LoadTrajectoryCall(0), LoadTrajectoryCall(1),
    StartTrajectoryCall(0), StartTrajectoryCall(1)]

  /** What init_board works from: the base address and each channel's
      pending filter and trajectory, which none of its calls changes. */
  datatype Setup = Setup(
    base: int,
    filter0: FilterParams, filter1: FilterParams,
    trajectory0: TrajectoryParams, trajectory1: TrajectoryParams)

  function FilterOf(s: Setup, channel: int): FilterParams
  {
    if channel != 0 then s.filter1 else s.filter0
  }

  function TrajectoryOf(s: Setup, channel: int): TrajectoryParams
  {
    if channel != 0 then s.trajectory1 else s.trajectory0
  }

  /** The script of a call other than a hard reset. */
  function CallScript(s: Setup, c: Call): seq<Action>
  {
    match c
    case HardResetCall(ch) => []
    case LoadFilterCall(ch) => LoadFilterScript(s.base, ch, FilterOf(s, ch))
    case UpdateFilterCall(ch) => UpdateFilterScript(s.base, ch)
    case LoadTrajectoryCall(ch) => LoadTrajectoryScript(s.base, ch, TrajectoryOf(s, ch))
    case StartTrajectoryCall(ch) => StartTrajectoryScript(s.base, ch)
  }

  function CallRun(s: Setup, c: Call, input: seq<Byte>): Outcome
  {
    if c.HardResetCall? then HardResetRun(s.base, c.channel, input)
    else Returns(Exec(CallScript(s, c), input))
  }

  /** The calls in order; a negative return value is returned at once. */
  function RunCalls(s: Setup, calls: seq<Call>, input: seq<Byte>): Outcome
    decreases |calls|
  {
    if calls == [] then Returns(Run([], [], input, 0))
    else
      match CallRun(s, calls[0], input)
      case Diverges => Diverges
      case Returns(r) =>
        if r.retval < 0 then Returns(r)
        else Chain(r, RunCalls(s, calls[1..], r.rest))
  }

  /** What init_board does. */
  function InitBoardRun(s: Setup, input: seq<Byte>): (o: Outcome)
    ensures input == [] ==> o == Diverges
  {
    RunCalls(s, InitOrder, input)
  }

  /** The scripts of a list of calls, one after another. */
  function CallsScript(s: Setup, calls: seq<Call>): seq<Action>
  {
    if calls == [] then [] else CallScript(s, calls[0]) + CallsScript(s, calls[1..])
  }

  /** Calls with no hard reset among them behave as one routine made of
      their scripts: stopping at the first failing call is stopping at its
      failing handshake. */
  lemma {:induction false} RunCallsIsExec(s: Setup, calls: seq<Call>, input: seq<Byte>)
    requires forall i | 0 <= i < |calls| :: !calls[i].HardResetCall?
    ensures RunCalls(s, calls, input) == Returns(Exec(CallsScript(s, calls), input))
    decreases |calls|
  {
    if calls != [] {
      var first := CallScript(s, calls[0]);
      var rest := CallsScript(s, calls[1..]);
      ExecAppend(first, rest, input);
      var r := Exec(first, input);
      if r.retval >= 0 {
        RunCallsIsExec(s, calls[1..], r.rest);
      }
    }
  }

  /** The eight calls after the two hard resets. */
  function InitScript(s: Setup): seq<Action>
  {
    FilterSetupScript(s) + TrajectorySetupScript(s)
  }

  /** Both filters loaded, then both committed. */
  function FilterSetupScript(s: Setup): seq<Action>
  {
    LoadFilterScript(s.base, 0, s.filter0) + (LoadFilterScript(s.base, 1, s.filter1)
    + (UpdateFilterScript(s.base, 0) + UpdateFilterScript(s.base, 1)))
  }

  /** Both trajectories loaded, then both started. */
  function TrajectorySetupScript(s: Setup): seq<Action>
  {
    LoadTrajectoryScript(s.base, 0, s.trajectory0) + (LoadTrajectoryScript(s.base, 1, s.trajectory1)
    + (StartTrajectoryScript(s.base, 0) + StartTrajectoryScript(s.base, 1)))
  }

  lemma CallsScriptFrom(s: Setup, calls: seq<Call>, k: nat)
    requires k < |calls|
    ensures CallsScript(s, calls[k..]) == CallScript(s, calls[k]) + CallsScript(s, calls[k + 1..])
  {
    assert calls[k..][1..] == calls[k + 1..];
  }

  lemma Regroup<T>(a: seq<T>, b: seq<T>, c: seq<T>, d: seq<T>, rest: seq<T>)
    ensures a + (b + (c + (d + rest))) == (a + (b + (c + d))) + rest
  {
  }

  lemma InitScriptIsCalls(s: Setup)
    ensures CallsScript(s, InitOrder[2..]) == InitScript(s)
  {
    var c := InitOrder[2..];
    var t := TrajectorySetupScript(s);
    var st1 := StartTrajectoryScript(s.base, 1);
    var t6 := StartTrajectoryScript(s.base, 0) + st1;
    var t5 := LoadTrajectoryScript(s.base, 1, s.trajectory1) + t6;
    var t3 := UpdateFilterScript(s.base, 1) + t;
    var t2 := UpdateFilterScript(s.base, 0) + t3;
    var t1 := LoadFilterScript(s.base, 1, s.filter1) + t2;
    var t0 := LoadFilterScript(s.base, 0, s.filter0) + t1;
    assert CallsScript(s, c[7..]) == st1 by {
      CallsScriptFrom(s, c, 7);
      assert c[8..] == [];
      assert st1 + [] == st1;
    }
    assert CallsScript(s, c[6..]) == t6 by { CallsScriptFrom(s, c, 6); }
    assert CallsScript(s, c[5..]) == t5 by { CallsScriptFrom(s, c, 5); }
    assert CallsScript(s, c[4..]) == t by { CallsScriptFrom(s, c, 4); }
    assert CallsScript(s, c[3..]) == t3 by { CallsScriptFrom(s, c, 3); }
    assert CallsScript(s, c[2..]) == t2 by { CallsScriptFrom(s, c, 2); }
    assert CallsScript(s, c[1..]) == t1 by { CallsScriptFrom(s, c, 1); }
    assert CallsScript(s, c) == t0 by { CallsScriptFrom(s, c, 0); assert c[0..] == c; }
    Regroup(LoadFilterScript(s.base, 0, s.filter0), LoadFilterScript(s.base, 1, s.filter1),
            UpdateFilterScript(s.base, 0), UpdateFilterScript(s.base, 1), t);
  }

  /** init_board resets channel 0, then channel 1, and if both return 0 it
      runs the rest as one routine: the two filters loaded, both updated,
      the two trajectories loaded, both started, stopping at the first
      handshake that fails. */
  lemma InitBoardSteps(s: Setup, input: seq<Byte>)
    ensures InitBoardRun(s, input) ==
      match HardResetRun(s.base, 0, input)
      case Diverges => Diverges
      case Returns(r0) =>
        if r0.retval < 0 then Returns(r0)
        else
          match HardResetRun(s.base, 1, r0.rest)
          case Diverges => Diverges
          case Returns(r1) =>
            if r1.retval < 0 then Chain(r0, Returns(r1))
            else Chain(r0, Chain(r1, Returns(Exec(InitScript(s), r1.rest))))
  {
    var c := InitOrder;
    assert c[1..][1..] == c[2..];
    match HardResetRun(s.base, 0, input)
    case Diverges =>
    case Returns(r0) =>
      if r0.retval >= 0 {
        match HardResetRun(s.base, 1, r0.rest)
        case Diverges =>
        case Returns(r1) =>
          if r1.retval >= 0 {
            RunCallsIsExec(s, c[2..], r1.rest);
            InitScriptIsCalls(s);
          }
      }
  }

  /** Bytes sent by four routines run one after another. */
  lemma FourBytes(a: seq<Action>, b: seq<Action>, c: seq<Action>, d: seq<Action>, port: int)
    ensures BytesTo(ScriptWrites(a + (b + (c + d))), port)
            == BytesTo(ScriptWrites(a), port) + (BytesTo(ScriptWrites(b), port)
               + (BytesTo(ScriptWrites(c), port) + BytesTo(ScriptWrites(d), port)))
  {
    var cd := c + d;
    var bd := b + cd;
    ScriptBytesAppend(c, d, port);
    ScriptBytesAppend(b, cd, port);
    ScriptBytesAppend(a, bd, port);
  }

  lemma FilterSetupBytes0(s: Setup)
    ensures BytesTo(ScriptWrites(FilterSetupScript(s)), CommandPort(s.base, 0)) == [LFIL, UDF]
    ensures BytesTo(ScriptWrites(FilterSetupScript(s)), DataPort(s.base, 0)) == FilterPayload(s.filter0)
  {
    var b := s.base;
    assert BytesTo(ScriptWrites(FilterSetupScript(s)), CommandPort(b, 0)) == [LFIL, UDF] by {
      var port := CommandPort(b, 0);
      assert BytesTo(ScriptWrites(LoadFilterScript(b, 0, s.filter0)), port) == [LFIL] by { LoadFilterBytes(b, 0, s.filter0, port); }
      assert BytesTo(ScriptWrites(LoadFilterScript(b, 1, s.filter1)), port) == [] by { LoadFilterBytes(b, 1, s.filter1, port); }
      assert BytesTo(ScriptWrites(UpdateFilterScript(b, 0)), port) == [UDF] by { CommitBytes(b, 0, UDF, port); }
      assert BytesTo(ScriptWrites(UpdateFilterScript(b, 1)), port) == [] by { CommitBytes(b, 1, UDF, port); }
      FourBytes(LoadFilterScript(b, 0, s.filter0), LoadFilterScript(b, 1, s.filter1), UpdateFilterScript(b, 0), UpdateFilterScript(b, 1), port);
    }
    assert BytesTo(ScriptWrites(FilterSetupScript(s)), DataPort(b, 0)) == FilterPayload(s.filter0) by {
      var port := DataPort(b, 0);
      assert BytesTo(ScriptWrites(LoadFilterScript(b, 0, s.filter0)), port) == FilterPayload(s.filter0) by { LoadFilterBytes(b, 0, s.filter0, port); }
      assert BytesTo(ScriptWrites(LoadFilterScript(b, 1, s.filter1)), port) == [] by { LoadFilterBytes(b, 1, s.filter1, port); }
      assert BytesTo(ScriptWrites(UpdateFilterScript(b, 0)), port) == [] by { CommitBytes(b, 0, UDF, port); }
      assert BytesTo(ScriptWrites(UpdateFilterScript(b, 1)), port) == [] by { CommitBytes(b, 1, UDF, port); }
      FourBytes(LoadFilterScript(b, 0, s.filter0), LoadFilterScript(b, 1, s.filter1), UpdateFilterScript(b, 0), UpdateFilterScript(b, 1), port);
      var n: seq<Byte> := [];
      assert FilterPayload(s.filter0) + (n + (n + n)) == FilterPayload(s.filter0);
    }
  }

  lemma FilterSetupBytes1(s: Setup)
    ensures BytesTo(ScriptWrites(FilterSetupScript(s)), CommandPort(s.base, 1)) == [LFIL, UDF]
    ensures BytesTo(ScriptWrites(FilterSetupScript(s)), DataPort(s.base, 1)) == FilterPayload(s.filter1)
  {
    var b := s.base;
    assert BytesTo(ScriptWrites(FilterSetupScript(s)), CommandPort(b, 1)) == [LFIL, UDF] by {
      var port := CommandPort(b, 1);
      assert BytesTo(ScriptWrites(LoadFilterScript(b, 0, s.filter0)), port) == [] by { LoadFilterBytes(b, 0, s.filter0, port); }
      assert BytesTo(ScriptWrites(LoadFilterScript(b, 1, s.filter1)), port) == [LFIL] by { LoadFilterBytes(b, 1, s.filter1, port); }
      assert BytesTo(ScriptWrites(UpdateFilterScript(b, 0)), port) == [] by { CommitBytes(b, 0, UDF, port); }
      assert BytesTo(ScriptWrites(UpdateFilterScript(b, 1)), port) == [UDF] by { CommitBytes(b, 1, UDF, port); }
      FourBytes(LoadFilterScript(b, 0, s.filter0), LoadFilterScript(b, 1, s.filter1), UpdateFilterScript(b, 0), UpdateFilterScript(b, 1), port);
    }
    assert BytesTo(ScriptWrites(FilterSetupScript(s)), DataPort(b, 1)) == FilterPayload(s.filter1) by {
      var port := DataPort(b, 1);
      assert BytesTo(ScriptWrites(LoadFilterScript(b, 0, s.filter0)), port) == [] by { LoadFilterBytes(b, 0, s.filter0, port); }
      assert BytesTo(ScriptWrites(LoadFilterScript(b, 1, s.filter1)), port) == FilterPayload(s.filter1) by { LoadFilterBytes(b, 1, s.filter1, port); }
      assert BytesTo(ScriptWrites(UpdateFilterScript(b, 0)), port) == [] by { CommitBytes(b, 0, UDF, port); }
      assert BytesTo(ScriptWrites(UpdateFilterScript(b, 1)), port) == [] by { CommitBytes(b, 1, UDF, port); }
      FourBytes(LoadFilterScript(b, 0, s.filter0), LoadFilterScript(b, 1, s.filter1), UpdateFilterScript(b, 0), UpdateFilterScript(b, 1), port);
      var n: seq<Byte> := [];
      assert n + (FilterPayload(s.filter1) + (n + n)) == FilterPayload(s.filter1);
    }
  }

  lemma TrajectorySetupBytes0(s: Setup)
    ensures BytesTo(ScriptWrites(TrajectorySetupScript(s)), CommandPort(s.base, 0)) == [LFIL, STT]
    ensures BytesTo(ScriptWrites(TrajectorySetupScript(s)), DataPort(s.base, 0)) == TrajectoryPayload(s.trajectory0)
  {
    var b := s.base;
    assert BytesTo(ScriptWrites(TrajectorySetupScript(s)), CommandPort(b, 0)) == [LFIL, STT] by {
      var port := CommandPort(b, 0);
      assert BytesTo(ScriptWrites(LoadTrajectoryScript(b, 0, s.trajectory0)), port) == [LFIL] by { LoadTrajectoryBytes(b, 0, s.trajectory0, port); }
      assert BytesTo(ScriptWrites(LoadTrajectoryScript(b, 1, s.trajectory1)), port) == [] by { LoadTrajectoryBytes(b, 1, s.trajectory1, port); }
      assert BytesTo(ScriptWrites(StartTrajectoryScript(b, 0)), port) == [STT] by { CommitBytes(b, 0, STT, port); }
      assert BytesTo(ScriptWrites(StartTrajectoryScript(b, 1)), port) == [] by { CommitBytes(b, 1, STT, port); }
      FourBytes(LoadTrajectoryScript(b, 0, s.trajectory0), LoadTrajectoryScript(b, 1, s.trajectory1), StartTrajectoryScript(b, 0), StartTrajectoryScript(b, 1), port);
    }
    assert BytesTo(ScriptWrites(TrajectorySetupScript(s)), DataPort(b, 0)) == TrajectoryPayload(s.trajectory0) by {
      var port := DataPort(b, 0);
      assert BytesTo(ScriptWrites(LoadTrajectoryScript(b, 0, s.trajectory0)), port) == TrajectoryPayload(s.trajectory0) by { LoadTrajectoryBytes(b, 0, s.trajectory0, port); }
      assert BytesTo(ScriptWrites(LoadTrajectoryScript(b, 1, s.trajectory1)), port) == [] by { LoadTrajectoryBytes(b, 1, s.trajectory1, port); }
      assert BytesTo(ScriptWrites(StartTrajectoryScript(b, 0)), port) == [] by { CommitBytes(b, 0, STT, port); }
      assert BytesTo(ScriptWrites(StartTrajectoryScript(b, 1)), port) == [] by { CommitBytes(b, 1, STT, port); }
      FourBytes(LoadTrajectoryScript(b, 0, s.trajectory0), LoadTrajectoryScript(b, 1, s.trajectory1), StartTrajectoryScript(b, 0), StartTrajectoryScript(b, 1), port);
      var n: seq<Byte> := [];
      assert TrajectoryPayload(s.trajectory0) + (n + (n + n)) == TrajectoryPayload(s.trajectory0);
    }
  }

  lemma TrajectorySetupBytes1(s: Setup)
    ensures BytesTo(ScriptWrites(TrajectorySetupScript(s)), CommandPort(s.base, 1)) == [LFIL, STT]
    ensures BytesTo(ScriptWrites(TrajectorySetupScript(s)), DataPort(s.base, 1)) == TrajectoryPayload(s.trajectory1)
  {
    var b := s.base;
    assert BytesTo(ScriptWrites(TrajectorySetupScript(s)), CommandPort(b, 1)) == [LFIL, STT] by {
      var port := CommandPort(b, 1);
      assert BytesTo(ScriptWrites(LoadTrajectoryScript(b, 0, s.trajectory0)), port) == [] by { LoadTrajectoryBytes(b, 0, s.trajectory0, port); }
      assert BytesTo(ScriptWrites(LoadTrajectoryScript(b, 1, s.trajectory1)), port) == [LFIL] by { LoadTrajectoryBytes(b, 1, s.trajectory1, port); }
      assert BytesTo(ScriptWrites(StartTrajectoryScript(b, 0)), port) == [] by { CommitBytes(b, 0, STT, port); }
      assert BytesTo(ScriptWrites(StartTrajectoryScript(b, 1)), port) == [STT] by { CommitBytes(b, 1, STT, port); }
      FourBytes(LoadTrajectoryScript(b, 0, s.trajectory0), LoadTrajectoryScript(b, 1, s.trajectory1), StartTrajectoryScript(b, 0), StartTrajectoryScript(b, 1), port);
    }
    assert BytesTo(ScriptWrites(TrajectorySetupScript(s)), DataPort(b, 1)) == TrajectoryPayload(s.trajectory1) by {
      var port := DataPort(b, 1);
      assert BytesTo(ScriptWrites(LoadTrajectoryScript(b, 0, s.trajectory0)), port) == [] by { LoadTrajectoryBytes(b, 0, s.trajectory0, port); }
      assert BytesTo(ScriptWrites(LoadTrajectoryScript(b, 1, s.trajectory1)), port) == TrajectoryPayload(s.trajectory1) by { LoadTrajectoryBytes(b, 1, s.trajectory1, port); }
      assert BytesTo(ScriptWrites(StartTrajectoryScript(b, 0)), port) == [] by { CommitBytes(b, 0, STT, port); }
      assert BytesTo(ScriptWrites(StartTrajectoryScript(b, 1)), port) == [] by { CommitBytes(b, 1, STT, port); }
      FourBytes(LoadTrajectoryScript(b, 0, s.trajectory0), LoadTrajectoryScript(b, 1, s.trajectory1), StartTrajectoryScript(b, 0), StartTrajectoryScript(b, 1), port);
      var n: seq<Byte> := [];
      assert n + (TrajectoryPayload(s.trajectory1) + (n + n)) == TrajectoryPayload(s.trajectory1);
    }
  }

  /** What the eight calls after the resets send to one channel: LFIL,
      UDF, LFIL and STT on its command port (never LTRJ), and its filter
      payload followed by its trajectory payload on its data port. */
  lemma InitScriptBytes(s: Setup, channel: int)
    requires channel == 0 || channel == 1
    ensures BytesTo(ScriptWrites(InitScript(s)), CommandPort(s.base, channel)) == [LFIL, UDF, LFIL, STT]
    ensures BytesTo(ScriptWrites(InitScript(s)), DataPort(s.base, channel))
            == FilterPayload(FilterOf(s, channel)) + TrajectoryPayload(TrajectoryOf(s, channel))
  {
    var cmd, data := CommandPort(s.base, channel), DataPort(s.base, channel);
    ScriptBytesAppend(FilterSetupScript(s), TrajectorySetupScript(s), cmd);
    ScriptBytesAppend(FilterSetupScript(s), TrajectorySetupScript(s), data);
    if channel == 0 {
      FilterSetupBytes0(s);
      TrajectorySetupBytes0(s);
    } else {
      FilterSetupBytes1(s);
      TrajectorySetupBytes1(s);
    }
  }

  /** Once both resets have returned 0, the bytes the rest of init_board
      sends to a channel's ports are a prefix of those above, and all of
      them when it returns 0. */
  lemma InitBoardBytes(s: Setup, channel: int, input: seq<Byte>)
    requires channel == 0 || channel == 1
    ensures var r := Exec(InitScript(s), input);
      var cmd, data := CommandPort(s.base, channel), DataPort(s.base, channel);
      var payload := FilterPayload(FilterOf(s, channel)) + TrajectoryPayload(TrajectoryOf(s, channel));
      && BytesTo(AllWrites(r.events), cmd) <= [LFIL, UDF, LFIL, STT]
      && BytesTo(AllWrites(r.events), data) <= payload
      && (r.retval == 0 ==> BytesTo(AllWrites(r.events), cmd) == [LFIL, UDF, LFIL, STT])
      && (r.retval == 0 ==> BytesTo(AllWrites(r.events), data) == payload)
  {
    InitScriptBytes(s, channel);
    ExecBytesArePrefix(InitScript(s), input, CommandPort(s.base, channel));
    ExecBytesArePrefix(InitScript(s), input, DataPort(s.base, channel));
  }

  /** init_board returns 0 or -EBUSY whenever it returns. */
  lemma InitBoardRetval(s: Setup, input: seq<Byte>)
    requires InitBoardRun(s, input).Returns?
    ensures InitBoardRun(s, input).run.retval == 0 || InitBoardRun(s, input).run.retval == -EBUSY
  {
    InitBoardSteps(s, input);
    match HardResetRun(s.base, 0, input)
    case Diverges =>
    case Returns(r0) =>
      HardResetRetval(s.base, 0, input);
      if r0.retval >= 0 {
        match HardResetRun(s.base, 1, r0.rest)
        case Diverges =>
        case Returns(r1) =>
          HardResetRetval(s.base, 1, r0.rest);
      }
  }
}
