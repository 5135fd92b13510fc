/** What each routine of src/andi_servo.c does on the bus, as the list of
    port actions it performs in order, and what those lists put on the
    command and data ports of a channel. */
module Commands {
  import opened Registers
  import opened Protocol
  import opened Encoding

  /** `board->base_address + COMMAND_0` or `+ COMMAND_1`. */
  function CommandPort(base: int, channel: int): int
  {
    base + CommandOffset(channel)
  }

  /** `board->base_address + DATA_0` or `+ DATA_1`. */
  function DataPort(base: int, channel: int): int
  {
    base + DataOffset(channel)
  }

  /** A run of writes of `bytes` to `port`. */
  function WritesTo(port: int, bytes: seq<Byte>): (w: seq<Event>)
    ensures |w| == |bytes|
  {
    seq(|bytes|, i requires 0 <= i < |bytes| => Write(port, bytes[i]))
  }

  lemma WritesToAppend(port: int, a: seq<Byte>, b: seq<Byte>)
    ensures WritesTo(port, a + b) == WritesTo(port, a) + WritesTo(port, b)
  {
  }

  /** Writes to one port carry exactly their bytes there and nothing to
      any other port. */
  lemma {:induction false} BytesToWritesTo(port: int, bytes: seq<Byte>, other: int)
    ensures BytesTo(WritesTo(port, bytes), port) == bytes
    ensures other != port ==> BytesTo(WritesTo(port, bytes), other) == []
    decreases |bytes|
  {
    if bytes != [] {
      var w := WritesTo(port, bytes);
      assert w[1..] == WritesTo(port, bytes[1..]);
      BytesToWritesTo(port, bytes[1..], other);
    }
  }

  // ---------------------------------------------------------------------
  // soft_reset
  // ---------------------------------------------------------------------

  /** RESET, a 2 ms pause, a check, RSTI, a check, two zero data bytes and a
      final check. */
  function SoftResetScript(base: int, channel: int): seq<Action>
  {
    var cmd, data := CommandPort(base, channel), DataPort(base, channel);
    [Out(RESET, cmd), Pause(2), CheckBusy(cmd), Out(RSTI, cmd), CheckBusy(cmd),
     Out(0x00, data), Out(0x00, data), CheckBusy(cmd)]
  }

  /** A soft reset writes RESET and RSTI to the command port and two zero
      bytes to the data port, and nothing else. */
  lemma SoftResetWrites(base: int, channel: int)
    ensures var cmd, data := CommandPort(base, channel), DataPort(base, channel);
      ScriptWrites(SoftResetScript(base, channel))
      == [Write(cmd, RESET), Write(cmd, RSTI), Write(data, 0x00), Write(data, 0x00)]
  {
    var cmd, data := CommandPort(base, channel), DataPort(base, channel);
    var p := [Out(RESET, cmd), Pause(2), CheckBusy(cmd), Out(RSTI, cmd)];
    var q := [CheckBusy(cmd), Out(0x00, data), Out(0x00, data), CheckBusy(cmd)];
    assert SoftResetScript(base, channel) == p + q;
    ScriptWritesAppend(p, q);
    FourWrites(p[0], p[1], p[2], p[3]);
    FourWrites(q[0], q[1], q[2], q[3]);
  }

  /** The writes of four actions, one after the other. */
  lemma FourWrites(a: Action, b: Action, c: Action, d: Action)
    ensures ScriptWrites([a, b, c, d]) == WriteOf(a) + WriteOf(b) + WriteOf(c) + WriteOf(d)
  {
    var s := [a, b, c, d];
    UnfoldWrites(s[4..]);
    UnfoldWrites(s[3..]);
    UnfoldWrites(s[2..]);
    UnfoldWrites(s[1..]);
    UnfoldWrites(s);
  }

  /** The two data bytes of a soft reset are written as a pair directly
      after a check. */
  lemma SoftResetGuarded(base: int, channel: int)
    ensures PairsGuarded(SoftResetScript(base, channel), DataPort(base, channel), false)
  {
    var s, data := SoftResetScript(base, channel), DataPort(base, channel);
    UnfoldPairs(s[8..], data, true);
    UnfoldPairs(s[7..], data, true);
    UnfoldPairs(s[5..], data, true);
    UnfoldPairs(s[4..], data, false);
    UnfoldPairs(s[3..], data, true);
    UnfoldPairs(s[2..], data, false);
    UnfoldPairs(s[1..], data, false);
    UnfoldPairs(s, data, false);
  }

  // ---------------------------------------------------------------------
  // load_filter
  // ---------------------------------------------------------------------

  /** One term of the filter: when it is loaded, a check, then its high
      and low byte. */
  function TermActions(cmd: int, data: int, load: bool, x: int): seq<Action>
  {
    if load then [CheckBusy(cmd), Out(HighByte(x), data), Out(LowByte(x), data)] else []
  }

  /** For each loaded term: a check, then its high and low byte. */
  function TermsScript(cmd: int, data: int, loads: seq<bool>, xs: seq<int>): seq<Action>
    requires |loads| == |xs|
  {
    if xs == [] then []
    else
      (if loads[0] then [CheckBusy(cmd), Out(HighByte(xs[0]), data), Out(LowByte(xs[0]), data)] else [])
      + TermsScript(cmd, data, loads[1..], xs[1..])
  }

  /** LFIL, a check, the dterm and control bytes, the loaded terms and a
      final check. */
  function LoadFilterScript(base: int, channel: int, f: FilterParams): seq<Action>
  {
    var cmd, data := CommandPort(base, channel), DataPort(base, channel);
    [Out(LFIL, cmd), CheckBusy(cmd), Out(DtermByte(f.dterm), data), Out(FilterControlByte(f) as int, data)]
    + TermsScript(cmd, data, TermLoads(f), Terms(f))
    + [CheckBusy(cmd)]
  }

  /** A check followed by a data pair. */
  lemma GuardedPair(cmd: int, data: int, x: int, y: int, armed: bool)
    requires cmd != data
    ensures var p := [CheckBusy(cmd), Out(x, data), Out(y, data)];
      && ScriptWrites(p) == [Write(data, x % 0x100), Write(data, y % 0x100)]
      && PairsGuarded(p, data, armed) && !EndsArmed(p, armed)
  {
    var p := [CheckBusy(cmd), Out(x, data), Out(y, data)];
    UnfoldWrites(p[3..]);
    UnfoldWrites(p[2..]);
    UnfoldWrites(p[1..]);
    UnfoldWrites(p);
    UnfoldPairs(p[3..], data, false);
    UnfoldPairs(p[1..], data, true);
    UnfoldPairs(p, data, armed);
  }

  /** A loaded term in front of a script that is already known to write
      its fields. */
  lemma TermsScriptLoaded(cmd: int, data: int, loads: seq<bool>, xs: seq<int>, armed: bool)
    requires |loads| == |xs| && xs != [] && loads[0] && cmd != data
    requires ScriptWrites(TermsScript(cmd, data, loads[1..], xs[1..])) == WritesTo(data, Fields(2, loads[1..], xs[1..]))
    requires PairsGuarded(TermsScript(cmd, data, loads[1..], xs[1..]), data, false)
    ensures ScriptWrites(TermsScript(cmd, data, loads, xs)) == WritesTo(data, Fields(2, loads, xs))
    ensures PairsGuarded(TermsScript(cmd, data, loads, xs), data, armed)
  {
    var tail := TermsScript(cmd, data, loads[1..], xs[1..]);
    var head := [CheckBusy(cmd), Out(HighByte(xs[0]), data), Out(LowByte(xs[0]), data)];
    assert TermsScript(cmd, data, loads, xs) == head + tail;
    assert Fields(2, loads, xs) == FieldBytes(2, xs[0]) + Fields(2, loads[1..], xs[1..]);
    GuardedPair(cmd, data, HighByte(xs[0]), LowByte(xs[0]), armed);
    assert ScriptWrites(head + tail) == WritesTo(data, FieldBytes(2, xs[0]) + Fields(2, loads[1..], xs[1..])) by {
      ScriptWritesAppend(head, tail);
      assert ScriptWrites(head) == WritesTo(data, FieldBytes(2, xs[0]));
      WritesToAppend(data, FieldBytes(2, xs[0]), Fields(2, loads[1..], xs[1..]));
    }
    PairsGuardedAppend(head, tail, data, armed);
  }

  lemma {:induction false} TermsScriptFacts(cmd: int, data: int, loads: seq<bool>, xs: seq<int>, armed: bool)
    requires |loads| == |xs| && cmd != data
    ensures ScriptWrites(TermsScript(cmd, data, loads, xs)) == WritesTo(data, Fields(2, loads, xs))
    ensures PairsGuarded(TermsScript(cmd, data, loads, xs), data, armed)
    decreases |xs|
  {
    if xs != [] {
      if loads[0] {
        TermsScriptFacts(cmd, data, loads[1..], xs[1..], false);
        TermsScriptLoaded(cmd, data, loads, xs, armed);
      } else {
        TermsScriptFacts(cmd, data, loads[1..], xs[1..], armed);
        assert TermsScript(cmd, data, loads, xs) == TermsScript(cmd, data, loads[1..], xs[1..]);
        assert Fields(2, loads, xs) == Fields(2, loads[1..], xs[1..]);
      }
    }
  }

  /** An opcode, a check and two data bytes. */
  lemma OpcodeThenPair(cmd: int, data: int, op: int, x: int, y: int)
    requires cmd != data
    ensures var p := [Out(op, cmd), CheckBusy(cmd), Out(x, data), Out(y, data)];
      && ScriptWrites(p) == [Write(cmd, op % 0x100), Write(data, x % 0x100), Write(data, y % 0x100)]
      && PairsGuarded(p, data, false) && !EndsArmed(p, false)
  {
    var p := [Out(op, cmd), CheckBusy(cmd), Out(x, data), Out(y, data)];
    UnfoldWrites(p[4..]);
    UnfoldWrites(p[3..]);
    UnfoldWrites(p[2..]);
    UnfoldWrites(p[1..]);
    UnfoldWrites(p);
    UnfoldPairs(p[4..], data, false);
    UnfoldPairs(p[2..], data, true);
    UnfoldPairs(p[1..], data, false);
    UnfoldPairs(p, data, false);
  }

  /** A lone check writes nothing and keeps every pair guarded. */
  lemma FinalCheck(cmd: int, data: int, armed: bool)
    requires cmd != data
    ensures ScriptWrites([CheckBusy(cmd)]) == []
    ensures PairsGuarded([CheckBusy(cmd)], data, armed) && EndsArmed([CheckBusy(cmd)], armed)
  {
    var p := [CheckBusy(cmd)];
    UnfoldWrites(p[1..]);
    UnfoldWrites(p);
    UnfoldPairs(p[1..], data, true);
    UnfoldPairs(p, data, armed);
  }

  /** The shape of a load: an opcode, a check, two data bytes, a body and
      a final check. Its writes are the opcode on the command port, then
      the two bytes and the body's bytes on the data port. */
  lemma LoadShapeWrites(cmd: int, data: int, op: int, x: Byte, y: Byte, body: seq<Action>, bytes: seq<Byte>)
    requires cmd != data
    requires ScriptWrites(body) == WritesTo(data, bytes)
    ensures ScriptWrites([Out(op, cmd), CheckBusy(cmd), Out(x, data), Out(y, data)] + body + [CheckBusy(cmd)])
            == [Write(cmd, op % 0x100)] + WritesTo(data, [x, y] + bytes)
  {
    var head := [Out(op, cmd), CheckBusy(cmd), Out(x, data), Out(y, data)];
    OpcodeThenPair(cmd, data, op, x, y);
    FinalCheck(cmd, data, false);
    ScriptWritesAppend(head, body);
    ScriptWritesAppend(head + body, [CheckBusy(cmd)]);
    assert ScriptWrites(head + body + [CheckBusy(cmd)]) == ScriptWrites(head + body);
    var pair := [Write(data, x), Write(data, y)];
    assert x % 0x100 == x && y % 0x100 == y;
    assert [Write(cmd, op % 0x100), Write(data, x), Write(data, y)] == [Write(cmd, op % 0x100)] + pair;
    WritesToAppend(data, [x, y], bytes);
    assert WritesTo(data, [x, y]) == pair;
    EventsAppend([Write(cmd, op % 0x100)], pair, WritesTo(data, bytes));
  }

  /** In a load shaped as above, the data pairs are guarded when the
      body's are. */
  lemma LoadShapeGuarded(cmd: int, data: int, op: int, x: Byte, y: Byte, body: seq<Action>)
    requires cmd != data
    requires PairsGuarded(body, data, false)
    ensures PairsGuarded([Out(op, cmd), CheckBusy(cmd), Out(x, data), Out(y, data)] + body + [CheckBusy(cmd)], data, false)
  {
    var head := [Out(op, cmd), CheckBusy(cmd), Out(x, data), Out(y, data)];
    OpcodeThenPair(cmd, data, op, x, y);
    PairsGuardedAppend(head, body, data, false);
    FinalCheck(cmd, data, EndsArmed(head + body, false));
    PairsGuardedAppend(head + body, [CheckBusy(cmd)], data, false);
  }

  /** load_filter writes LFIL to the command port and the filter payload to
      the data port, and nothing else. */
  lemma LoadFilterWrites(base: int, channel: int, f: FilterParams)
    ensures ScriptWrites(LoadFilterScript(base, channel, f))
            == [Write(CommandPort(base, channel), LFIL)] + WritesTo(DataPort(base, channel), FilterPayload(f))
  {
    var cmd, data := CommandPort(base, channel), DataPort(base, channel);
    var d, c := DtermByte(f.dterm), FilterControlByte(f) as int;
    var fields := Fields(2, TermLoads(f), Terms(f));
    TermsScriptFacts(cmd, data, TermLoads(f), Terms(f), false);
    LoadShapeWrites(cmd, data, LFIL, d, c, TermsScript(cmd, data, TermLoads(f), Terms(f)), fields);
    assert FilterPayload(f) == [d, c] + fields;
  }

  /** In a filter load every data byte pair follows a check. */
  lemma LoadFilterGuarded(base: int, channel: int, f: FilterParams)
    ensures PairsGuarded(LoadFilterScript(base, channel, f), DataPort(base, channel), false)
  {
    var cmd, data := CommandPort(base, channel), DataPort(base, channel);
    TermsScriptFacts(cmd, data, TermLoads(f), Terms(f), false);
    LoadShapeGuarded(cmd, data, LFIL, DtermByte(f.dterm), FilterControlByte(f) as int, TermsScript(cmd, data, TermLoads(f), Terms(f)));
  }

  /** The filter load, term by term in the order the driver sends them. */
  lemma LoadFilterSteps(base: int, channel: int, f: FilterParams)
    ensures var cmd, data := CommandPort(base, channel), DataPort(base, channel);
      LoadFilterScript(base, channel, f)
      == [Out(LFIL, cmd), CheckBusy(cmd), Out(DtermByte(f.dterm), data), Out(FilterControlByte(f) as int, data)]
         + (TermActions(cmd, data, f.kp != 0, f.kp) + (TermActions(cmd, data, f.ki != 0, f.ki)
         + (TermActions(cmd, data, f.kd != 0, f.kd) + (TermActions(cmd, data, f.il != 0, f.il) + [CheckBusy(cmd)]))))
  {
    var cmd, data := CommandPort(base, channel), DataPort(base, channel);
    var loads, xs := TermLoads(f), Terms(f);
    assert TermsScript(cmd, data, loads[4..], xs[4..]) == [];
    assert TermsScript(cmd, data, loads[3..], xs[3..]) == TermActions(cmd, data, f.il != 0, f.il) by {
      assert loads[3..][1..] == loads[4..] && xs[3..][1..] == xs[4..];
    }
    assert TermsScript(cmd, data, loads[2..], xs[2..])
        == TermActions(cmd, data, f.kd != 0, f.kd) + TermActions(cmd, data, f.il != 0, f.il) by {
      assert loads[2..][1..] == loads[3..] && xs[2..][1..] == xs[3..];
    }
    assert TermsScript(cmd, data, loads[1..], xs[1..])
        == TermActions(cmd, data, f.ki != 0, f.ki) + TermsScript(cmd, data, loads[2..], xs[2..]) by {
      assert loads[1..][1..] == loads[2..] && xs[1..][1..] == xs[2..];
    }
    assert TermsScript(cmd, data, loads, xs)
        == TermActions(cmd, data, f.kp != 0, f.kp) + TermsScript(cmd, data, loads[1..], xs[1..]);
  }

  // ---------------------------------------------------------------------
  // load_trajectory
  // ---------------------------------------------------------------------

  /** One magnitude of the trajectory: when it is loaded, its two high
      bytes, a check, its two low bytes and a check. */
  function MagnitudeActions(cmd: int, data: int, load: bool, x: int): seq<Action>
  {
    if load then
      var q := QuadBytes(x);
      [Out(q[0], data), Out(q[1], data), CheckBusy(cmd), Out(q[2], data), Out(q[3], data), CheckBusy(cmd)]
    else []
  }

  /** For each loaded magnitude: its two high bytes, a check, its two low
      bytes, a check. */
  function MagnitudesScript(cmd: int, data: int, loads: seq<bool>, xs: seq<int>): seq<Action>
    requires |loads| == |xs|
  {
    if xs == [] then []
    else
      MagnitudeActions(cmd, data, loads[0], xs[0]) + MagnitudesScript(cmd, data, loads[1..], xs[1..])
  }

  /** LFIL (not LTRJ), a check, the control word, a check, the loaded
      magnitudes and a final check. */
  function LoadTrajectoryScript(base: int, channel: int, t: TrajectoryParams): seq<Action>
  {
    var cmd, data := CommandPort(base, channel), DataPort(base, channel);
    var w := WordBytes(TrajectoryControlWord(t));
    [Out(LFIL, cmd), CheckBusy(cmd), Out(w[0], data), Out(w[1], data), CheckBusy(cmd)]
    + MagnitudesScript(cmd, data, MagnitudeLoads(t), Magnitudes(t))
    + [CheckBusy(cmd)]
  }

  /** The trajectory load, magnitude by magnitude in the order the driver
      sends them. */
  lemma LoadTrajectorySteps(base: int, channel: int, t: TrajectoryParams)
    ensures var cmd, data := CommandPort(base, channel), DataPort(base, channel);
      var w := WordBytes(TrajectoryControlWord(t));
      LoadTrajectoryScript(base, channel, t)
      == [Out(LFIL, cmd), CheckBusy(cmd), Out(w[0], data), Out(w[1], data), CheckBusy(cmd)]
         + (MagnitudeActions(cmd, data, t.loadAcc, t.acc) + (MagnitudeActions(cmd, data, t.loadVel, t.velocity)
         + (MagnitudeActions(cmd, data, t.loadPos, t.position) + [CheckBusy(cmd)])))
  {
    var cmd, data := CommandPort(base, channel), DataPort(base, channel);
    var loads, xs := MagnitudeLoads(t), Magnitudes(t);
    assert MagnitudesScript(cmd, data, loads[3..], xs[3..]) == [];
    assert MagnitudesScript(cmd, data, loads[2..], xs[2..]) == MagnitudeActions(cmd, data, t.loadPos, t.position) by {
      assert loads[2..][1..] == loads[3..] && xs[2..][1..] == xs[3..];
    }
    assert MagnitudesScript(cmd, data, loads[1..], xs[1..])
        == MagnitudeActions(cmd, data, t.loadVel, t.velocity) + MagnitudeActions(cmd, data, t.loadPos, t.position) by {
      assert loads[1..][1..] == loads[2..] && xs[1..][1..] == xs[2..];
    }
    var a, b, c := MagnitudeActions(cmd, data, t.loadAcc, t.acc), MagnitudeActions(cmd, data, t.loadVel, t.velocity),
                   MagnitudeActions(cmd, data, t.loadPos, t.position);
    assert MagnitudesScript(cmd, data, loads, xs) == a + (b + c);
    var w := WordBytes(TrajectoryControlWord(t));
    var head := [Out(LFIL, cmd), CheckBusy(cmd), Out(w[0], data), Out(w[1], data), CheckBusy(cmd)];
    var z := [CheckBusy(cmd)];
    ActionsAppend(head, a + (b + c), z);
    ActionsAppend(a, b + c, z);
    ActionsAppend(b, c, z);
  }

  /** Actions appended in two steps are appended at once. */
  lemma ActionsAppend(p: seq<Action>, q: seq<Action>, r: seq<Action>)
    ensures p + q + r == p + (q + r)
  {
  }

  /** Two data bytes and a check. */
  lemma PairThenCheck(cmd: int, data: int, x: int, y: int)
    requires cmd != data
    ensures var p := [Out(x, data), Out(y, data), CheckBusy(cmd)];
      && ScriptWrites(p) == [Write(data, x % 0x100), Write(data, y % 0x100)]
      && PairsGuarded(p, data, true) && EndsArmed(p, true)
  {
    var p := [Out(x, data), Out(y, data), CheckBusy(cmd)];
    UnfoldWrites(p[3..]);
    UnfoldWrites(p[2..]);
    UnfoldWrites(p[1..]);
    UnfoldWrites(p);
    UnfoldPairs(p[3..], data, true);
    UnfoldPairs(p[2..], data, false);
    UnfoldPairs(p, data, true);
  }

  /** Two data bytes, a check, two data bytes, a check. */
  lemma MagnitudeBlock(cmd: int, data: int, q: seq<Byte>)
    requires cmd != data && |q| == 4
    ensures var b := [Out(q[0], data), Out(q[1], data), CheckBusy(cmd), Out(q[2], data), Out(q[3], data), CheckBusy(cmd)];
      && ScriptWrites(b) == WritesTo(data, q)
      && PairsGuarded(b, data, true) && EndsArmed(b, true)
  {
    var p1 := [Out(q[0], data), Out(q[1], data), CheckBusy(cmd)];
    var p2 := [Out(q[2], data), Out(q[3], data), CheckBusy(cmd)];
    PairThenCheck(cmd, data, q[0], q[1]);
    PairThenCheck(cmd, data, q[2], q[3]);
    ScriptWritesAppend(p1, p2);
    PairsGuardedAppend(p1, p2, data, true);
    assert (p1 + p2)[|p1 + p2| - 1] == p2[2];
    assert WritesTo(data, q) == WritesTo(data, q[..2]) + WritesTo(data, q[2..]) by {
      assert q == q[..2] + q[2..];
      WritesToAppend(data, q[..2], q[2..]);
    }
    assert p1 + p2 == [Out(q[0], data), Out(q[1], data), CheckBusy(cmd), Out(q[2], data), Out(q[3], data), CheckBusy(cmd)];
  }

  lemma {:induction false} MagnitudesScriptFacts(cmd: int, data: int, loads: seq<bool>, xs: seq<int>)
    requires |loads| == |xs| && cmd != data
    ensures ScriptWrites(MagnitudesScript(cmd, data, loads, xs)) == WritesTo(data, Fields(4, loads, xs))
    ensures PairsGuarded(MagnitudesScript(cmd, data, loads, xs), data, true)
    ensures EndsArmed(MagnitudesScript(cmd, data, loads, xs), true)
    decreases |xs|
  {
    if xs != [] {
      var tail := MagnitudesScript(cmd, data, loads[1..], xs[1..]);
      MagnitudesScriptFacts(cmd, data, loads[1..], xs[1..]);
      if loads[0] {
        var q := QuadBytes(xs[0]);
        var head := [Out(q[0], data), Out(q[1], data), CheckBusy(cmd), Out(q[2], data), Out(q[3], data), CheckBusy(cmd)];
        assert MagnitudesScript(cmd, data, loads, xs) == head + tail;
        assert Fields(4, loads, xs) == q + Fields(4, loads[1..], xs[1..]);
        MagnitudeBlock(cmd, data, q);
        assert ScriptWrites(head + tail) == WritesTo(data, q + Fields(4, loads[1..], xs[1..])) by {
          ScriptWritesAppend(head, tail);
          WritesToAppend(data, q, Fields(4, loads[1..], xs[1..]));
        }
        assert PairsGuarded(head + tail, data, true) by {
          PairsGuardedAppend(head, tail, data, true);
        }
        assert EndsArmed(head + tail, true) by {
          if tail != [] {
            assert (head + tail)[|head + tail| - 1] == tail[|tail| - 1];
          }
        }
      } else {
        assert MagnitudesScript(cmd, data, loads, xs) == tail;
        assert Fields(4, loads, xs) == Fields(4, loads[1..], xs[1..]);
      }
    }
  }

  /** A check in front of a body writes what the body writes and arms its
      first pair. */
  lemma CheckFirst(cmd: int, data: int, body: seq<Action>)
    requires cmd != data
    ensures ScriptWrites([CheckBusy(cmd)] + body) == ScriptWrites(body)
    ensures PairsGuarded([CheckBusy(cmd)] + body, data, false) == PairsGuarded(body, data, true)
  {
    var s := [CheckBusy(cmd)] + body;
    assert s[1..] == body;
    UnfoldWrites(s);
    UnfoldPairs(s, data, false);
  }

  /** load_trajectory writes LFIL to the command port and the trajectory
      payload to the data port, and nothing else: a magnitude whose load
      flag is clear is never written. */
  lemma LoadTrajectoryWrites(base: int, channel: int, t: TrajectoryParams)
    ensures ScriptWrites(LoadTrajectoryScript(base, channel, t))
            == [Write(CommandPort(base, channel), LFIL)] + WritesTo(DataPort(base, channel), TrajectoryPayload(t))
  {
    var cmd, data := CommandPort(base, channel), DataPort(base, channel);
    var w := WordBytes(TrajectoryControlWord(t));
    var mags := MagnitudesScript(cmd, data, MagnitudeLoads(t), Magnitudes(t));
    var head := [Out(LFIL, cmd), CheckBusy(cmd), Out(w[0], data), Out(w[1], data)];
    MagnitudesScriptFacts(cmd, data, MagnitudeLoads(t), Magnitudes(t));
    CheckFirst(cmd, data, mags);
    LoadShapeWrites(cmd, data, LFIL, w[0], w[1], [CheckBusy(cmd)] + mags, Fields(4, MagnitudeLoads(t), Magnitudes(t)));
    LoadTrajectoryShape(base, channel, t);
  }

  /** The trajectory script and payload, split at the control word. */
  lemma LoadTrajectoryShape(base: int, channel: int, t: TrajectoryParams)
    ensures var cmd, data := CommandPort(base, channel), DataPort(base, channel);
      var w := WordBytes(TrajectoryControlWord(t));
      && LoadTrajectoryScript(base, channel, t)
         == [Out(LFIL, cmd), CheckBusy(cmd), Out(w[0], data), Out(w[1], data)]
            + ([CheckBusy(cmd)] + MagnitudesScript(cmd, data, MagnitudeLoads(t), Magnitudes(t))) + [CheckBusy(cmd)]
      && TrajectoryPayload(t) == [w[0], w[1]] + Fields(4, MagnitudeLoads(t), Magnitudes(t))
  {
    var w := WordBytes(TrajectoryControlWord(t));
    assert w == [w[0], w[1]];
  }

  /** In a trajectory load every data byte pair follows a check. */
  lemma LoadTrajectoryGuarded(base: int, channel: int, t: TrajectoryParams)
    ensures PairsGuarded(LoadTrajectoryScript(base, channel, t), DataPort(base, channel), false)
  {
    var cmd, data := CommandPort(base, channel), DataPort(base, channel);
    var w := WordBytes(TrajectoryControlWord(t));
    var mags := MagnitudesScript(cmd, data, MagnitudeLoads(t), Magnitudes(t));
    var head := [Out(LFIL, cmd), CheckBusy(cmd), Out(w[0], data), Out(w[1], data)];
    MagnitudesScriptFacts(cmd, data, MagnitudeLoads(t), Magnitudes(t));
    CheckFirst(cmd, data, mags);
    LoadShapeGuarded(cmd, data, LFIL, w[0], w[1], [CheckBusy(cmd)] + mags);
    LoadTrajectoryShape(base, channel, t);
  }

  /** The trajectory load opens with the filter-load opcode. */
  lemma LoadTrajectoryOpensWithLfil(base: int, channel: int, t: TrajectoryParams)
    ensures LoadTrajectoryScript(base, channel, t)[0] == Out(LFIL, CommandPort(base, channel))
    ensures LoadTrajectoryScript(base, channel, t)[0] != Out(LTRJ, CommandPort(base, channel))
  {
  }

  // ---------------------------------------------------------------------
  // update_filter, start_trajectory
  // ---------------------------------------------------------------------

  /** An opcode followed by a check; the caller commits only if it passes. */
  function CommitScript(base: int, channel: int, opcode: int): seq<Action>
  {
    [Out(opcode, CommandPort(base, channel)), CheckBusy(CommandPort(base, channel))]
  }

  function UpdateFilterScript(base: int, channel: int): seq<Action>
  {
    CommitScript(base, channel, UDF)
  }

  function StartTrajectoryScript(base: int, channel: int): seq<Action>
  {
    CommitScript(base, channel, STT)
  }

  /** A commit returns 0 exactly when the handshake after the opcode
      succeeds, and writes the opcode alone. */
  lemma CommitRun(base: int, channel: int, opcode: int, input: seq<Byte>)
    ensures var cmd := CommandPort(base, channel);
      var r := Exec(CommitScript(base, channel, opcode), input);
      && r.events == [Write(cmd, opcode % 0x100)] + Handshake(cmd, input).events
      && r.retval == Handshake(cmd, input).retval
      && r.rest == Handshake(cmd, input).rest
  {
    var cmd := CommandPort(base, channel);
    var s := CommitScript(base, channel, opcode);
    UnfoldExec(s[2..], input);
    UnfoldExec(s[1..], input);
    UnfoldExec(s, input);
    var h := Handshake(cmd, input);
    assert h.events + [] == h.events;
  }

  /** A commit writes its opcode and nothing else. */
  lemma CommitWrites(base: int, channel: int, opcode: int)
    ensures ScriptWrites(CommitScript(base, channel, opcode)) == [Write(CommandPort(base, channel), opcode % 0x100)]
  {
    var s := CommitScript(base, channel, opcode);
    UnfoldWrites(s[2..]);
    UnfoldWrites(s[1..]);
    UnfoldWrites(s);
  }

  // ---------------------------------------------------------------------
  // get_status, get_signals, get_real_position
  // ---------------------------------------------------------------------

  /** One unguarded read of the command port. */
  function GetStatusScript(base: int, channel: int): seq<Action>
  {
    [In(CommandPort(base, channel))]
  }

  /** get_status has no handshake, so it always returns 0, and the status
      is the next response of the command port. */
  lemma GetStatusRun(base: int, channel: int, input: seq<Byte>)
    ensures var r := Exec(GetStatusScript(base, channel), input);
      && r.retval == 0
      && r.got == [Next(input)]
      && r.events == [Read(CommandPort(base, channel), Next(input))]
      && r.rest == Drop(input)
  {
    var s := GetStatusScript(base, channel);
    UnfoldExec(s[1..], Drop(input));
    UnfoldExec(s, input);
  }

  /** A check, RDSIGS, a check, two data reads, a check. */
  function GetSignalsScript(base: int, channel: int): seq<Action>
  {
    var cmd, data := CommandPort(base, channel), DataPort(base, channel);
    [CheckBusy(cmd), Out(RDSIGS, cmd), CheckBusy(cmd), In(data), In(data), CheckBusy(cmd)]
  }

  /** A check, RDRP, a check, two data reads, a check, two data reads, a
      check. */
  function GetRealPositionScript(base: int, channel: int): seq<Action>
  {
    var cmd, data := CommandPort(base, channel), DataPort(base, channel);
    [CheckBusy(cmd), Out(RDRP, cmd), CheckBusy(cmd), In(data), In(data), CheckBusy(cmd),
     In(data), In(data), CheckBusy(cmd)]
  }

  /** What get_signals leaves in `*signals`: the value it held before
      until both bytes are read, then the word whose high byte is the
      first byte read and whose low byte is the second. (The low byte is
      OR-ed into a value shifted left by 8, so the OR adds it.) */
  function SignalsRead(got: seq<Byte>, before: int): (v: int)
    ensures |got| >= 2 ==> 0 <= v < 0x1_0000 && HighByte(v) == got[0] && LowByte(v) == got[1]
    ensures |got| < 2 ==> v == before
  {
    if |got| >= 2 then
      WordSplit(got[0], got[1]);
      Word(got[0], got[1])
    else before
  }

  /** Sending a 16-bit value's high byte, then its low byte, into
      get_signals yields that value. */
  lemma SignalsRoundTrip(x: int, before: int)
    requires 0 <= x < 0x1_0000
    ensures SignalsRead([HighByte(x), LowByte(x)], before) == x
  {
    assert x % 0x1_0000 == x;
  }

  /** What get_real_position leaves in `*real_position`: the value it held
      before until two bytes are read; after two, a value whose bytes, most
      significant first, are 0, the two bytes read and 0, as the routine
      stores it before its middle check; after four, the 32-bit value
      whose bytes, most significant first, are the four bytes read. */
  function PositionRead(got: seq<Byte>, before: int): (v: int)
    ensures |got| >= 4 ==> 0 <= v < 0x1_0000_0000 && QuadBytes(v) == got[..4]
    ensures 2 <= |got| < 4 ==> QuadBytes(v) == [0, got[0], got[1], 0]
    ensures |got| < 2 ==> v == before
  {
    if |got| >= 4 then
      AssembleRoundTrip(got[..4]);
      Assemble32(got[..4])
    else if |got| >= 2 then
      AssembleRoundTrip([0, got[0], got[1], 0]);
      Assemble32([0, got[0], got[1], 0])
    else before
  }

  /** The number of reads in a script. */
  function InCount(script: seq<Action>): nat
  {
    if script == [] then 0 else (if script[0].In? then 1 else 0) + InCount(script[1..])
  }

  lemma UnfoldInCount(s: seq<Action>)
    ensures InCount(s) == if s == [] then 0 else (if s[0].In? then 1 else 0) + InCount(s[1..])
  {
  }

  /** A routine that returns 0 has made every read of its script. */
  lemma {:induction false} ExecGotCount(script: seq<Action>, input: seq<Byte>)
    ensures Exec(script, input).retval == 0 ==> |Exec(script, input).got| == InCount(script)
    decreases |script|
  {
    if script != [] {
      var first := Step(script[0], input);
      if first.retval >= 0 {
        ExecGotCount(script[1..], first.rest);
      }
    }
  }

  /** get_signals reads only the data port, and both bytes when it returns
      0. */
  lemma GetSignalsReads(base: int, channel: int, input: seq<Byte>)
    ensures var r := Exec(GetSignalsScript(base, channel), input);
      && r.got == ReadsFrom(r.events, DataPort(base, channel))
      && (r.retval == 0 ==> |r.got| == 2)
  {
    var s := GetSignalsScript(base, channel);
    GetSignalsShape(base, channel);
    ExecGotIsDataReads(s, input, DataPort(base, channel));
    ExecGotCount(s, input);
  }

  /** Its reads are all of the data port, and there are 2 of them. */
  lemma GetSignalsShape(base: int, channel: int)
    ensures ReadsOnlyData(GetSignalsScript(base, channel), DataPort(base, channel))
    ensures InCount(GetSignalsScript(base, channel)) == 2
  {
    var s := GetSignalsScript(base, channel);
    UnfoldInCount(s[6..]);
    UnfoldInCount(s[5..]);
    UnfoldInCount(s[4..]);
    UnfoldInCount(s[3..]);
    UnfoldInCount(s[2..]);
    UnfoldInCount(s[1..]);
    UnfoldInCount(s);
  }

  /** get_signals writes RDSIGS alone, and its two reads follow a check. */
  lemma GetSignalsWrites(base: int, channel: int)
    ensures ScriptWrites(GetSignalsScript(base, channel)) == [Write(CommandPort(base, channel), RDSIGS)]
    ensures PairsGuarded(GetSignalsScript(base, channel), DataPort(base, channel), false)
  {
    var s, data := GetSignalsScript(base, channel), DataPort(base, channel);
    UnfoldWrites(s[6..]);
    UnfoldWrites(s[5..]);
    UnfoldWrites(s[4..]);
    UnfoldWrites(s[3..]);
    UnfoldWrites(s[2..]);
    UnfoldWrites(s[1..]);
    UnfoldWrites(s);
    UnfoldPairs(s[6..], data, true);
    UnfoldPairs(s[5..], data, false);
    UnfoldPairs(s[3..], data, true);
    UnfoldPairs(s[2..], data, false);
    UnfoldPairs(s[1..], data, true);
    UnfoldPairs(s, data, false);
  }

  /** get_real_position reads only the data port, and all four bytes when
      it returns 0. */
  lemma GetRealPositionReads(base: int, channel: int, input: seq<Byte>)
    ensures var r := Exec(GetRealPositionScript(base, channel), input);
      && r.got == ReadsFrom(r.events, DataPort(base, channel))
      && (r.retval == 0 ==> |r.got| == 4)
  {
    var s := GetRealPositionScript(base, channel);
    GetRealPositionShape(base, channel);
    ExecGotIsDataReads(s, input, DataPort(base, channel));
    ExecGotCount(s, input);
  }

  /** Its reads are all of the data port, and there are 4 of them. */
  lemma GetRealPositionShape(base: int, channel: int)
    ensures ReadsOnlyData(GetRealPositionScript(base, channel), DataPort(base, channel))
    ensures InCount(GetRealPositionScript(base, channel)) == 4
  {
    var s := GetRealPositionScript(base, channel);
    UnfoldInCount(s[9..]);
    UnfoldInCount(s[8..]);
    UnfoldInCount(s[7..]);
    UnfoldInCount(s[6..]);
    UnfoldInCount(s[5..]);
    UnfoldInCount(s[4..]);
    UnfoldInCount(s[3..]);
    UnfoldInCount(s[2..]);
    UnfoldInCount(s[1..]);
    UnfoldInCount(s);
  }

  /** get_real_position writes RDRP alone, and each pair of reads follows a
      check. */
  lemma GetRealPositionWrites(base: int, channel: int)
    ensures ScriptWrites(GetRealPositionScript(base, channel)) == [Write(CommandPort(base, channel), RDRP)]
    ensures PairsGuarded(GetRealPositionScript(base, channel), DataPort(base, channel), false)
  {
    var s, data := GetRealPositionScript(base, channel), DataPort(base, channel);
    UnfoldWrites(s[9..]);
    UnfoldWrites(s[8..]);
    UnfoldWrites(s[7..]);
    UnfoldWrites(s[6..]);
    UnfoldWrites(s[5..]);
    UnfoldWrites(s[4..]);
    UnfoldWrites(s[3..]);
    UnfoldWrites(s[2..]);
    UnfoldWrites(s[1..]);
    UnfoldWrites(s);
    UnfoldPairs(s[9..], data, true);
    UnfoldPairs(s[8..], data, false);
    UnfoldPairs(s[6..], data, true);
    UnfoldPairs(s[5..], data, false);
    UnfoldPairs(s[3..], data, true);
    UnfoldPairs(s[2..], data, false);
    UnfoldPairs(s[1..], data, true);
    UnfoldPairs(s, data, false);
  }

  // ---------------------------------------------------------------------
  // What each routine sends to one port
  // ---------------------------------------------------------------------

  lemma ScriptBytesAppend(a: seq<Action>, b: seq<Action>, port: int)
    ensures BytesTo(ScriptWrites(a + b), port) == BytesTo(ScriptWrites(a), port) + BytesTo(ScriptWrites(b), port)
  {
    ScriptWritesAppend(a, b);
    BytesToAppend(ScriptWrites(a), ScriptWrites(b), port);
  }

  lemma OneWriteBytes(port: int, value: Byte, other: int)
    ensures BytesTo([Write(port, value)], other) == if other == port then [value] else []
  {
    var w := [Write(port, value)];
    assert w[1..] == [];
  }

  /** load_filter sends LFIL to the channel's command port, the filter
      payload to its data port, and nothing anywhere else. */
  lemma LoadFilterBytes(base: int, channel: int, f: FilterParams, port: int)
    ensures BytesTo(ScriptWrites(LoadFilterScript(base, channel, f)), port)
            == (if port == CommandPort(base, channel) then [LFIL] else [])
               + (if port == DataPort(base, channel) then FilterPayload(f) else [])
  {
    var cmd, data := CommandPort(base, channel), DataPort(base, channel);
    LoadFilterWrites(base, channel, f);
    BytesToAppend([Write(cmd, LFIL)], WritesTo(data, FilterPayload(f)), port);
    OneWriteBytes(cmd, LFIL, port);
    BytesToWritesTo(data, FilterPayload(f), port);
  }

  /** load_trajectory sends LFIL to the channel's command port, the
      trajectory payload to its data port, and nothing anywhere else. */
  lemma LoadTrajectoryBytes(base: int, channel: int, t: TrajectoryParams, port: int)
    ensures BytesTo(ScriptWrites(LoadTrajectoryScript(base, channel, t)), port)
            == (if port == CommandPort(base, channel) then [LFIL] else [])
               + (if port == DataPort(base, channel) then TrajectoryPayload(t) else [])
  {
    var cmd, data := CommandPort(base, channel), DataPort(base, channel);
    LoadTrajectoryWrites(base, channel, t);
    BytesToAppend([Write(cmd, LFIL)], WritesTo(data, TrajectoryPayload(t)), port);
    OneWriteBytes(cmd, LFIL, port);
    BytesToWritesTo(data, TrajectoryPayload(t), port);
  }

  /** A commit sends its opcode to the command port and nothing else. */
  lemma CommitBytes(base: int, channel: int, opcode: Byte, port: int)
    ensures BytesTo(ScriptWrites(CommitScript(base, channel, opcode)), port)
            == if port == CommandPort(base, channel) then [opcode] else []
  {
    CommitWrites(base, channel, opcode);
    OneWriteBytes(CommandPort(base, channel), opcode, port);
  }
}
