/** Worked cases: the records src/servo.c sets up at load time, the bytes
    the chip receives for them, and what the pointer assignment in
    update_filter does to a channel whose pending record is changed
    afterwards. */
module Scenarios {
  import opened Registers
  import opened Protocol
  import opened Encoding
  import opened Commands
  import opened Bus
  import opened Device
  import opened Servo

  /** The filter src/servo.c gives both channels: dterm 2, Kp 2, Ki 0,
      Kd 50, Il 0. */
  const DefaultFilter: FilterParams := FilterParams(2, 2, 0, 50, 0)

  /** The trajectory src/servo.c gives both channels: smooth stop, with
      acceleration 160000, velocity 200000 and position 0 all loaded. */
  const DefaultTrajectory: TrajectoryParams :=
    TrajectoryParams(false, false, true, false, false, true, true, true, false, false, false,
                     160000, 200000, 0)

  /** The default filter loads Kp and Kd only: control byte 0x0A. */
  lemma DefaultFilterControl()
    ensures FilterControlByte(DefaultFilter) == 0x0A
  {
    var w := FilterControlByte(DefaultFilter);
    assert w & LOAD_KP != 0 && w & LOAD_KI == 0 && w & LOAD_KD != 0 && w & LOAD_IL == 0 && w & 0xF0 == 0;
  }

  /** load_filter sends the default filter as dterm byte 1, control byte
      0x0A, then Kp = 0x0002 and Kd = 0x0032. */
  lemma DefaultFilterBytes()
    ensures FilterPayload(DefaultFilter) == [0x01, 0x0A, 0x00, 0x02, 0x00, 0x32]
  {
    var f := DefaultFilter;
    DefaultFilterControl();
    assert TermLoads(f) == [true, false, true, false];
    assert Fields(2, [false], [0]) == [];
    assert Fields(2, [true, false], [50, 0]) == [0x00, 0x32];
    assert Fields(2, [false, true, false], [0, 50, 0]) == [0x00, 0x32];
    assert Fields(2, TermLoads(f), Terms(f)) == [0x00, 0x02, 0x00, 0x32];
  }

  /** After that load the chip holds Kp 2 and Kd 50 and has not been given
      Ki or Il, and that is what it decodes from the bytes. */
  lemma DefaultFilterInChip()
    ensures ChipViewOfFilter(DefaultFilter) == ChipFilter(1, Some(2), None, Some(50), None)
    ensures DecodeFilterPayload(FilterPayload(DefaultFilter)) == Some(ChipViewOfFilter(DefaultFilter))
  {
    var f := DefaultFilter;
    var loads, xs := TermLoads(f), Terms(f);
    assert loads == [true, false, true, false] && xs == [2, 0, 50, 0];
    assert loads[1..] == [false, true, false] && xs[1..] == [0, 50, 0];
    assert loads[2..] == [true, false] && xs[2..] == [50, 0];
    assert loads[3..] == [false] && xs[3..] == [0];
    assert LoadedFields(2, loads[3..], xs[3..]) == [None];
    assert LoadedFields(2, loads[2..], xs[2..]) == [Some(50), None] by {
      assert loads[2..][1..] == loads[3..] && xs[2..][1..] == xs[3..];
    }
    assert LoadedFields(2, loads[1..], xs[1..]) == [None, Some(50), None] by {
      assert loads[1..][1..] == loads[2..] && xs[1..][1..] == xs[2..];
    }
    assert LoadedFields(2, loads, xs) == [Some(2), None, Some(50), None];
    FilterRoundTrip(f);
  }

  /** load_trajectory sends the default trajectory as control word 0x042A,
      then acceleration 0x00027100, velocity 0x00030D40 and position 0. */
  lemma DefaultTrajectoryBytes()
    ensures TrajectoryControlWord(DefaultTrajectory) == 0x042A
    ensures TrajectoryPayload(DefaultTrajectory)
            == [0x04, 0x2A, 0x00, 0x02, 0x71, 0x00, 0x00, 0x03, 0x0D, 0x40, 0x00, 0x00, 0x00, 0x00]
  {
    var t := DefaultTrajectory;
    assert MagnitudeLoads(t) == [true, true, true];
    QuadBytesOf(160000, [0x00, 0x02, 0x71, 0x00]);
    QuadBytesOf(200000, [0x00, 0x03, 0x0D, 0x40]);
    QuadBytesOf(0, [0x00, 0x00, 0x00, 0x00]);
    assert Fields(4, [true], [0]) == [0x00, 0x00, 0x00, 0x00];
    assert Fields(4, [true, true], [200000, 0]) == [0x00, 0x03, 0x0D, 0x40, 0x00, 0x00, 0x00, 0x00];
  }

  /** The position get_real_position assembles from the bytes of a 32-bit
      value read high byte first is that value. */
  lemma PositionReadBack(x: int)
    requires 0 <= x < 0x1_0000_0000
    ensures PositionRead(QuadBytes(x), 0) == x
  {
  }

  /** update_filter makes the channel's current filter the very record
      its pending filter is: a later change to the pending filter is a
      change to the filter the channel reports as running, although no
      update_filter has sent it to the chip. */
  method AliasAfterCommit() returns (running: int)
    ensures running == 7
  {
    var c0 := new Channel(DefaultFilter, DefaultTrajectory);
    var c1 := new Channel(DefaultFilter, DefaultTrajectory);
    var board := new Board(0x300, c0, c1);
    var ports := new Ports([0x00]);
    var driver := new Driver(ports);
    HandshakeReadyAt(CommandPort(0x300, 0), [0x00], 0);
    CommitRun(0x300, 0, UDF, [0x00]);
    var retval := driver.UpdateFilter(board, 0);
    assert retval == 0;
    c0.newFilter.kp := 7;
    running := c0.filter.kp;
  }
}
