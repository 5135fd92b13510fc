/** What the routines of init_board do to the two channel structs
    (include/andi.h): load_filter and load_trajectory clear their flag
    before any port access, update_filter and start_trajectory point the
    current record at the pending one and set their flag once the chip is
    ready, and hard_reset touches neither. The board's Channel0 and
    Channel1 are pointers, so they may name one struct; the model keeps
    that case too. */
module ChannelEffects {
  import opened Registers
  import opened Protocol
  import opened Commands
  import opened Startup
  import opened Device

  /** The part of a struct LM629 these routines read or write. */
  datatype Slot = Slot(
    filter: Filter, newFilter: Filter, filterUpdated: bool,
    trajectory: Trajectory, newTrajectory: Trajectory, trajectoryStarted: bool)

  /** Both channels of a board; `shared` when Channel0 and Channel1 are one
      struct, so that a write through either is seen through both. */
  datatype Slots = Slots(c0: Slot, c1: Slot, shared: bool)

  /** `if (channel) board->Channel1 else board->Channel0` */
  function Get(st: Slots, channel: int): Slot
  {
    if channel != 0 then st.c1 else st.c0
  }

  /** A write through the pointer `channel` selects. */
  function Put(st: Slots, channel: int, x: Slot): Slots
  {
    if st.shared then st.(c0 := x, c1 := x)
    else if channel != 0 then st.(c1 := x)
    else st.(c0 := x)
  }

  /** The change one call makes, `ok` telling whether it returned 0. */
  function Effect(c: Call, ok: bool, st: Slots): Slots
  {
    var x := Get(st, c.channel);
    match c
    case HardResetCall(_) => st
    case LoadFilterCall(ch) => Put(st, ch, x.(filterUpdated := false))
    case UpdateFilterCall(ch) =>
      if ok then Put(st, ch, x.(filter := x.newFilter, filterUpdated := true)) else st
    case LoadTrajectoryCall(ch) => Put(st, ch, x.(trajectoryStarted := false))
    case StartTrajectoryCall(ch) =>
      if ok then Put(st, ch, x.(trajectory := x.newTrajectory, trajectoryStarted := true)) else st
  }

  /** The change a run of calls makes: each call in turn, up to and
      including the first that returns a negative value. */
  function Effects(s: Setup, calls: seq<Call>, input: seq<Byte>, st: Slots): Slots
    decreases |calls|
  {
    if calls == [] then st
    else
      match CallRun(s, calls[0], input)
      case Diverges => st
      case Returns(r) =>
        var next := Effect(calls[0], r.retval == 0, st);
        if r.retval < 0 then next else Effects(s, calls[1..], r.rest, next)
  }

  /** The four calls of init_board that load and commit the filters, and
      the four that load and start the trajectories. */
  const FilterCalls: seq<Call> :=
    [LoadFilterCall(0), LoadFilterCall(1), UpdateFilterCall(0), UpdateFilterCall(1)]
  const TrajectoryCalls: seq<Call> :=
    [LoadTrajectoryCall(0), LoadTrajectoryCall(1), StartTrajectoryCall(0), StartTrajectoryCall(1)]

  lemma InitOrderParts()
    ensures InitOrder[2..] == FilterCalls + TrajectoryCalls
    ensures InitOrder[2..][..4] == FilterCalls && InitOrder[2..][4..] == TrajectoryCalls
    ensures InitOrder[1..][1..] == InitOrder[2..]
    ensures FilterCalls == [LoadFilterCall(0), LoadFilterCall(1)] + [UpdateFilterCall(0), UpdateFilterCall(1)]
    ensures TrajectoryCalls == [LoadTrajectoryCall(0), LoadTrajectoryCall(1)] + [StartTrajectoryCall(0), StartTrajectoryCall(1)]
  {
  }

  /** One call, then the rest. */
  lemma EffectsFirst(s: Setup, c: Call, rest: seq<Call>, input: seq<Byte>, st: Slots)
    requires !c.HardResetCall?
    ensures var r := Exec(CallScript(s, c), input);
      var next := Effect(c, r.retval == 0, st);
      Effects(s, [c] + rest, input, st) == if r.retval < 0 then next else Effects(s, rest, r.rest, next)
  {
    assert ([c] + rest)[0] == c && ([c] + rest)[1..] == rest;
  }

  /** Two calls in a row. */
  lemma EffectsPair(s: Setup, a: Call, b: Call, input: seq<Byte>, st: Slots)
    requires !a.HardResetCall? && !b.HardResetCall?
    ensures var r := Exec(CallScript(s, a), input);
      var next := Effect(a, r.retval == 0, st);
      Effects(s, [a, b], input, st)
      == if r.retval < 0 then next else Effect(b, Exec(CallScript(s, b), r.rest).retval == 0, next)
  {
    var r := Exec(CallScript(s, a), input);
    EffectsFirst(s, a, [b], input, st);
    EffectsFirst(s, b, [], r.rest, Effect(a, r.retval == 0, st));
    assert [a] + [b] == [a, b];
  }

  /** A run of calls split in two: the second part runs from where the
      first left the responses, unless the first stopped early. */
  lemma {:induction false} EffectsAppend(s: Setup, a: seq<Call>, b: seq<Call>, input: seq<Byte>, st: Slots)
    ensures Effects(s, a + b, input, st)
            == match RunCalls(s, a, input)
               case Diverges => Effects(s, a, input, st)
               case Returns(r) =>
                 if r.retval < 0 then Effects(s, a, input, st)
                 else Effects(s, b, r.rest, Effects(s, a, input, st))
    decreases |a|
  {
    if a == [] {
      assert a + b == b;
    } else {
      assert (a + b)[0] == a[0] && (a + b)[1..] == a[1..] + b;
      match CallRun(s, a[0], input)
      case Diverges =>
      case Returns(r) =>
        if r.retval >= 0 {
          EffectsAppend(s, a[1..], b, r.rest, Effect(a[0], r.retval == 0, st));
        }
    }
  }

  /** The pending pointers never move and the board keeps its layout. */
  predicate SameShape(st: Slots, st': Slots)
  {
    && st'.c0.newFilter == st.c0.newFilter && st'.c0.newTrajectory == st.c0.newTrajectory
    && st'.c1.newFilter == st.c1.newFilter && st'.c1.newTrajectory == st.c1.newTrajectory
    && st'.shared == st.shared
  }

  /** A set flag means the channel runs the pending record: filter_updated
      only once Filter is NewFilter, trajectory_started only once
      Trajectory is NewTrajectory. */
  predicate Consistent(x: Slot)
  {
    && (x.filterUpdated ==> x.filter == x.newFilter)
    && (x.trajectoryStarted ==> x.trajectory == x.newTrajectory)
  }

  predicate Coherent(st: Slots)
  {
    Consistent(st.c0) && Consistent(st.c1) && (st.shared ==> st.c0 == st.c1)
  }

  lemma EffectKeepsCoherent(c: Call, ok: bool, st: Slots)
    requires Coherent(st)
    ensures Coherent(Effect(c, ok, st)) && SameShape(st, Effect(c, ok, st))
  {
  }

  /** Whatever the chip answers, every call of init_board keeps the flags
      honest: no run of them leaves a flag set over a record other than
      the pending one, and none moves a pending pointer. */
  lemma {:induction false} EffectsKeepCoherent(s: Setup, calls: seq<Call>, input: seq<Byte>, st: Slots)
    requires Coherent(st)
    ensures Coherent(Effects(s, calls, input, st)) && SameShape(st, Effects(s, calls, input, st))
    decreases |calls|
  {
    if calls != [] {
      match CallRun(s, calls[0], input)
      case Diverges =>
      case Returns(r) =>
        var next := Effect(calls[0], r.retval == 0, st);
        EffectKeepsCoherent(calls[0], r.retval == 0, st);
        if r.retval >= 0 {
          EffectsKeepCoherent(s, calls[1..], r.rest, next);
        }
    }
  }

  /** When the first load_filter of init_board fails, the only trace it
      leaves in the channel structs is channel 0's filter_updated, cleared
      before the handshake that failed. */
  lemma FirstLoadFails(s: Setup, input: seq<Byte>, st: Slots)
    requires Exec(LoadFilterScript(s.base, 0, s.filter0), input).retval != 0
    ensures Effects(s, InitOrder[2..], input, st) == Put(st, 0, st.c0.(filterUpdated := false))
  {
    InitOrderParts();
    EffectsFirst(s, LoadFilterCall(0), InitOrder[3..], input, st);
    assert InitOrder[2..] == [LoadFilterCall(0)] + InitOrder[3..];
  }

  /** Two calls with no hard reset run as one routine made of their
      scripts. */
  lemma PairRuns(s: Setup, a: Call, b: Call, input: seq<Byte>)
    requires !a.HardResetCall? && !b.HardResetCall?
    ensures RunCalls(s, [a, b], input) == Returns(Exec(CallScript(s, a) + CallScript(s, b), input))
  {
    var c := [a, b];
    RunCallsIsExec(s, c, input);
    CallsScriptFrom(s, c, 1);
    assert c[2..] == [];
    AppendEmpty(CallScript(s, b));
    CallsScriptFrom(s, c, 0);
    assert c[0..] == c;
  }

  lemma AppendEmpty<T>(x: seq<T>)
    ensures x + [] == x
  {
  }

  /** The four filter calls of init_board run as its filter script. */
  lemma FilterCallsRun(s: Setup, input: seq<Byte>)
    ensures RunCalls(s, FilterCalls, input) == Returns(Exec(FilterSetupScript(s), input))
  {
    var c := FilterCalls;
    RunCallsIsExec(s, c, input);
    var u1 := UpdateFilterScript(s.base, 1);
    var t2 := UpdateFilterScript(s.base, 0) + u1;
    var t1 := LoadFilterScript(s.base, 1, s.filter1) + t2;
    assert CallsScript(s, c[3..]) == u1 by {
      CallsScriptFrom(s, c, 3);
      assert c[4..] == [];
      AppendEmpty(u1);
    }
    assert CallsScript(s, c[2..]) == t2 by { CallsScriptFrom(s, c, 2); }
    assert CallsScript(s, c[1..]) == t1 by { CallsScriptFrom(s, c, 1); }
    assert CallsScript(s, c) == FilterSetupScript(s) by { CallsScriptFrom(s, c, 0); assert c[0..] == c; }
  }

  /** A hard reset changes no channel struct: the calls after it run from
      where it left the responses, unless it failed. */
  lemma ResetFirst(s: Setup, calls: seq<Call>, input: seq<Byte>, st: Slots, r: Run)
    requires calls != [] && calls[0].HardResetCall?
    requires HardResetRun(s.base, calls[0].channel, input) == Returns(r)
    ensures Effects(s, calls, input, st) == if r.retval < 0 then st else Effects(s, calls[1..], r.rest, st)
  {
  }

  /** Calls on trajectories leave the filter half of every slot alone. */
  lemma {:induction false} TrajectoryCallsKeep(s: Setup, calls: seq<Call>, input: seq<Byte>, st: Slots)
    requires forall i | 0 <= i < |calls| :: calls[i].LoadTrajectoryCall? || calls[i].StartTrajectoryCall?
    requires st.shared ==> st.c0 == st.c1
    ensures var e := Effects(s, calls, input, st);
      && e.c0.filter == st.c0.filter && e.c0.filterUpdated == st.c0.filterUpdated
      && e.c1.filter == st.c1.filter && e.c1.filterUpdated == st.c1.filterUpdated
    decreases |calls|
  {
    if calls != [] {
      match CallRun(s, calls[0], input)
      case Returns(r) =>
        if r.retval >= 0 {
          var next := Effect(calls[0], r.retval == 0, st);
          assert forall i | 0 <= i < |calls[1..]| :: calls[1..][i] == calls[i + 1];
          TrajectoryCallsKeep(s, calls[1..], r.rest, next);
        }
    }
  }

  /** When both calls of a pair return 0, each one's success effect
      happens, the first before the second. */
  lemma PairSucceeds(s: Setup, a: Call, b: Call, input: seq<Byte>, st: Slots)
    requires !a.HardResetCall? && !b.HardResetCall?
    requires Exec(CallScript(s, a) + CallScript(s, b), input).retval == 0
    ensures Effects(s, [a, b], input, st) == Effect(b, true, Effect(a, true, st))
  {
    EffectsPair(s, a, b, input, st);
    ExecAppend(CallScript(s, a), CallScript(s, b), input);
  }

  /** init_board's filter half in the responses: both load_filter calls,
      then, unless one failed, both update_filter calls. */
  lemma FilterScriptSplit(s: Setup, input: seq<Byte>)
    ensures var l := LoadFilterScript(s.base, 0, s.filter0) + LoadFilterScript(s.base, 1, s.filter1);
      var u := UpdateFilterScript(s.base, 0) + UpdateFilterScript(s.base, 1);
      var r := Exec(l, input);
      Exec(FilterSetupScript(s), input) == (if r.retval < 0 then r else Then(r, Exec(u, r.rest)))
  {
    var l0, l1 := LoadFilterScript(s.base, 0, s.filter0), LoadFilterScript(s.base, 1, s.filter1);
    var u := UpdateFilterScript(s.base, 0) + UpdateFilterScript(s.base, 1);
    ActionsAppend(l0, l1, u);
    ExecAppend(l0 + l1, u, input);
  }

  /** The same split in the channel structs. */
  lemma FilterEffectsSplit(s: Setup, input: seq<Byte>, st: Slots)
    ensures var l := LoadFilterScript(s.base, 0, s.filter0) + LoadFilterScript(s.base, 1, s.filter1);
      var r := Exec(l, input);
      var loaded := Effects(s, [LoadFilterCall(0), LoadFilterCall(1)], input, st);
      Effects(s, FilterCalls, input, st)
      == (if r.retval < 0 then loaded else Effects(s, [UpdateFilterCall(0), UpdateFilterCall(1)], r.rest, loaded))
  {
    InitOrderParts();
    PairRuns(s, LoadFilterCall(0), LoadFilterCall(1), input);
    EffectsAppend(s, [LoadFilterCall(0), LoadFilterCall(1)], [UpdateFilterCall(0), UpdateFilterCall(1)], input, st);
  }

  /** Both splits of the filter half together. */
  lemma FilterSetupSplit(s: Setup, input: seq<Byte>, st: Slots)
    ensures var l := LoadFilterScript(s.base, 0, s.filter0) + LoadFilterScript(s.base, 1, s.filter1);
      var u := UpdateFilterScript(s.base, 0) + UpdateFilterScript(s.base, 1);
      var r := Exec(l, input);
      var loaded := Effects(s, [LoadFilterCall(0), LoadFilterCall(1)], input, st);
      && Exec(FilterSetupScript(s), input) == (if r.retval < 0 then r else Then(r, Exec(u, r.rest)))
      && Effects(s, FilterCalls, input, st)
         == (if r.retval < 0 then loaded else Effects(s, [UpdateFilterCall(0), UpdateFilterCall(1)], r.rest, loaded))
  {
    FilterScriptSplit(s, input);
    FilterEffectsSplit(s, input, st);
  }

  /** init_board's trajectory half in the responses: both load_trajectory
      calls, then, unless one failed, both start_trajectory calls. */
  lemma TrajectoryScriptSplit(s: Setup, input: seq<Byte>)
    ensures var l := LoadTrajectoryScript(s.base, 0, s.trajectory0) + LoadTrajectoryScript(s.base, 1, s.trajectory1);
      var t := StartTrajectoryScript(s.base, 0) + StartTrajectoryScript(s.base, 1);
      var r := Exec(l, input);
      Exec(TrajectorySetupScript(s), input) == (if r.retval < 0 then r else Then(r, Exec(t, r.rest)))
  {
    var l0, l1 := LoadTrajectoryScript(s.base, 0, s.trajectory0), LoadTrajectoryScript(s.base, 1, s.trajectory1);
    var t := StartTrajectoryScript(s.base, 0) + StartTrajectoryScript(s.base, 1);
    ActionsAppend(l0, l1, t);
    ExecAppend(l0 + l1, t, input);
  }

  /** The same split in the channel structs. */
  lemma TrajectoryEffectsSplit(s: Setup, input: seq<Byte>, st: Slots)
    ensures var l := LoadTrajectoryScript(s.base, 0, s.trajectory0) + LoadTrajectoryScript(s.base, 1, s.trajectory1);
      var r := Exec(l, input);
      var loaded := Effects(s, [LoadTrajectoryCall(0), LoadTrajectoryCall(1)], input, st);
      Effects(s, TrajectoryCalls, input, st)
      == (if r.retval < 0 then loaded else Effects(s, [StartTrajectoryCall(0), StartTrajectoryCall(1)], r.rest, loaded))
  {
    InitOrderParts();
    PairRuns(s, LoadTrajectoryCall(0), LoadTrajectoryCall(1), input);
    EffectsAppend(s, [LoadTrajectoryCall(0), LoadTrajectoryCall(1)], [StartTrajectoryCall(0), StartTrajectoryCall(1)], input, st);
  }

  /** Both splits of the trajectory half together. */
  lemma TrajectorySetupSplit(s: Setup, input: seq<Byte>, st: Slots)
    ensures var l := LoadTrajectoryScript(s.base, 0, s.trajectory0) + LoadTrajectoryScript(s.base, 1, s.trajectory1);
      var t := StartTrajectoryScript(s.base, 0) + StartTrajectoryScript(s.base, 1);
      var r := Exec(l, input);
      var loaded := Effects(s, [LoadTrajectoryCall(0), LoadTrajectoryCall(1)], input, st);
      && Exec(TrajectorySetupScript(s), input) == (if r.retval < 0 then r else Then(r, Exec(t, r.rest)))
      && Effects(s, TrajectoryCalls, input, st)
         == (if r.retval < 0 then loaded else Effects(s, [StartTrajectoryCall(0), StartTrajectoryCall(1)], r.rest, loaded))
  {
    TrajectoryScriptSplit(s, input);
    TrajectoryEffectsSplit(s, input, st);
  }

  /** The eight calls after the resets: the filter half, then, unless it
      failed, the trajectory half. */
  lemma SetupSplit(s: Setup, input: seq<Byte>, st: Slots)
    ensures var f := Exec(FilterSetupScript(s), input);
      var filtered := Effects(s, FilterCalls, input, st);
      && Exec(InitScript(s), input) == (if f.retval < 0 then f else Then(f, Exec(TrajectorySetupScript(s), f.rest)))
      && Effects(s, InitOrder[2..], input, st)
         == (if f.retval < 0 then filtered else Effects(s, TrajectoryCalls, f.rest, filtered))
  {
    ExecAppend(FilterSetupScript(s), TrajectorySetupScript(s), input);
    InitOrderParts();
    FilterCallsRun(s, input);
    EffectsAppend(s, FilterCalls, TrajectoryCalls, input, st);
  }

  /** The channel runs its pending filter and its pending trajectory, with
      both flags set. */
  predicate Runs(x: Slot)
  {
    x.filter == x.newFilter && x.filterUpdated && x.trajectory == x.newTrajectory && x.trajectoryStarted
  }

  /** When the four filter calls all return 0, each has its success
      effect, in order. */
  lemma FilterSetupSucceeds(s: Setup, input: seq<Byte>, st: Slots)
    requires Exec(FilterSetupScript(s), input).retval == 0
    ensures Effects(s, FilterCalls, input, st)
            == Effect(UpdateFilterCall(1), true, Effect(UpdateFilterCall(0), true,
                 Effect(LoadFilterCall(1), true, Effect(LoadFilterCall(0), true, st))))
  {
    FilterSetupSplit(s, input, st);
    var r := Exec(LoadFilterScript(s.base, 0, s.filter0) + LoadFilterScript(s.base, 1, s.filter1), input);
    PairSucceeds(s, LoadFilterCall(0), LoadFilterCall(1), input, st);
    var loaded := Effects(s, [LoadFilterCall(0), LoadFilterCall(1)], input, st);
    PairSucceeds(s, UpdateFilterCall(0), UpdateFilterCall(1), r.rest, loaded);
  }

  /** The same for the four trajectory calls. */
  lemma TrajectorySetupSucceeds(s: Setup, input: seq<Byte>, st: Slots)
    requires Exec(TrajectorySetupScript(s), input).retval == 0
    ensures Effects(s, TrajectoryCalls, input, st)
            == Effect(StartTrajectoryCall(1), true, Effect(StartTrajectoryCall(0), true,
                 Effect(LoadTrajectoryCall(1), true, Effect(LoadTrajectoryCall(0), true, st))))
  {
    TrajectorySetupSplit(s, input, st);
    var r := Exec(LoadTrajectoryScript(s.base, 0, s.trajectory0) + LoadTrajectoryScript(s.base, 1, s.trajectory1), input);
    PairSucceeds(s, LoadTrajectoryCall(0), LoadTrajectoryCall(1), input, st);
    var loaded := Effects(s, [LoadTrajectoryCall(0), LoadTrajectoryCall(1)], input, st);
    PairSucceeds(s, StartTrajectoryCall(0), StartTrajectoryCall(1), r.rest, loaded);
  }

  /** When the eight calls after the resets all return 0, both channels run
      their pending records, whatever the structs held before. */
  lemma SetupSucceeds(s: Setup, input: seq<Byte>, st: Slots)
    requires Exec(InitScript(s), input).retval == 0
    ensures Runs(Effects(s, InitOrder[2..], input, st).c0)
    ensures Runs(Effects(s, InitOrder[2..], input, st).c1)
  {
    SetupSplit(s, input, st);
    var f := Exec(FilterSetupScript(s), input);
    FilterSetupSucceeds(s, input, st);
    TrajectorySetupSucceeds(s, f.rest, Effects(s, FilterCalls, input, st));
  }
}
