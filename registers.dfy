/** Port offsets, bit masks and LM629 command mnemonics of the ANDI-SERVO
    board (include/andi_servo.h), with the facts about them that the
    encoders and decoders rely on. */
module Registers {

  // ---------------------------------------------------------------------
  // I/O port offsets from the board's base address
  // ---------------------------------------------------------------------

  const COMMAND_0: int := 0x0
  const DATA_0: int := 0x1
  const COMMAND_1: int := 0x2
  const DATA_1: int := 0x3
  const PWM_BRAKES: int := 0x4
  const HARD_RESET: int := 0x5
  const LED: int := 0x6
  const IRQENABLE: int := 0x6
  const IRQCAUSE: int := 0x6
  const CLEARIRQ: int := 0x7

  /** The command-port offset a channel number selects: any non-zero
      channel number means channel 1, as `if (channel)` does. */
  function CommandOffset(channel: int): (offset: int)
    ensures offset == (if channel != 0 then 2 else 0)
  {
    if channel != 0 then COMMAND_1 else COMMAND_0
  }

  /** The data-port offset a channel number selects. */
  function DataOffset(channel: int): (offset: int)
    ensures offset == CommandOffset(channel) + 1
  {
    if channel != 0 then DATA_1 else DATA_0
  }

  // ---------------------------------------------------------------------
  // LM629 bit masks
  // ---------------------------------------------------------------------

  /* Filter control word */
  const LOAD_KP: bv8 := 0x08
  const LOAD_KI: bv8 := 0x04
  const LOAD_KD: bv8 := 0x02
  const LOAD_IL: bv8 := 0x01

  /* Trajectory control word */
  const FORWARD_DIRECTION: bv16 := 0x1000
  const VELOCITY_MODE: bv16 := 0x0800
  const SMOOTH_STOP: bv16 := 0x0400
  const ABRUPT_STOP: bv16 := 0x0200
  const TURN_MOTOR_OFF: bv16 := 0x0100
  const LOAD_ACCELERATION: bv16 := 0x0020
  const ACCELERATION_RELATIVE: bv16 := 0x0010
  const LOAD_VELOCITY: bv16 := 0x0008
  const VELOCITY_RELATIVE: bv16 := 0x0004
  const LOAD_POSITION: bv16 := 0x0002
  const POSITION_RELATIVE: bv16 := 0x0001

  /* Status byte */
  const MOTOR_OFF: bv8 := 0x80
  const BREAKPOINT_REACHED: bv8 := 0x40
  const POSITION_ERROR: bv8 := 0x20
  const WRAP_AROUND: bv8 := 0x10
  const INDEX_PULSE: bv8 := 0x08
  const TRAJECTORY_COMPLETE: bv8 := 0x04
  const COMMAND_ERROR: bv8 := 0x02
  const BUSY_BIT: bv8 := 0x01

  /* Signals register, upper byte. The header defines FORWARD_DIRECTION and
     VELOCITY_MODE a second time here with the values above; the model
     declares them once and uses the trajectory constants for both. */
  const HOST_INTERRUPT: bv16 := 0x8000
  const ACCELERATION_LOADED: bv16 := 0x4000
  const FILTER_LOADED: bv16 := 0x2000
  const ON_TARGET: bv16 := 0x0400
  const TURN_OFF_ON_POS_ERROR: bv16 := 0x0200
  const EIGHT_BIT_MODE: bv16 := 0x0100
  const ACQUIRE_NEXT_INDEX: bv16 := 0x0001

  // ---------------------------------------------------------------------
  // LM629 command mnemonics used by the driver
  // ---------------------------------------------------------------------

  const RESET: int := 0x0
  const STT: int := 0x1
  const UDF: int := 0x4
  const RDRP: int := 0xa
  const RDSIGS: int := 0xc
  const RSTI: int := 0x1d
  const LFIL: int := 0x1e
  const LTRJ: int := 0x1f

  // ---------------------------------------------------------------------
  // Driver constants
  // ---------------------------------------------------------------------

  /** Number of busy-bit polls before a handshake gives up. */
  const BUSY_RETRY_LIMIT: nat := 30

  /** Linux's EBUSY; operations report -EBUSY. */
  const EBUSY: int := 16

  // ---------------------------------------------------------------------
  // Facts about the constants
  // ---------------------------------------------------------------------

  predicate IsSingleBit8(m: bv8) { m != 0 && m & (m - 1) == 0 }

  predicate IsSingleBit16(m: bv16) { m != 0 && m & (m - 1) == 0 }

  /** Channel c's command port is at offset 2c and its data port at 2c+1;
      the board-wide ports sit above them, with the LED, IRQ-enable and
      IRQ-cause registers sharing one offset. */
  lemma PortLayout()
    ensures CommandOffset(0) == 0 && DataOffset(0) == 1
    ensures CommandOffset(1) == 2 && DataOffset(1) == 3
    ensures PWM_BRAKES == 4 && HARD_RESET == 5 && CLEARIRQ == 7
    ensures LED == IRQENABLE == IRQCAUSE == 6
    ensures forall c :: DataOffset(c) != CommandOffset(c)
  {
  }

  /** The four filter masks are distinct single bits; together they make
      up exactly the low nibble. The integer sum equals the OR, so no two
      of them overlap. */
  lemma FilterMasksAreBits()
    ensures IsSingleBit8(LOAD_KP) && IsSingleBit8(LOAD_KI)
    ensures IsSingleBit8(LOAD_KD) && IsSingleBit8(LOAD_IL)
    ensures LOAD_KP | LOAD_KI | LOAD_KD | LOAD_IL == 0x0F
    ensures LOAD_KP as int + LOAD_KI as int + LOAD_KD as int + LOAD_IL as int == 0x0F
  {
  }

  /** The eleven trajectory masks are distinct single bits that make up
      exactly 0x1F3F (bits 0-5 and 8-12). */
  lemma TrajectoryMasksAreBits()
    ensures IsSingleBit16(FORWARD_DIRECTION) && IsSingleBit16(VELOCITY_MODE)
    ensures IsSingleBit16(SMOOTH_STOP) && IsSingleBit16(ABRUPT_STOP)
    ensures IsSingleBit16(TURN_MOTOR_OFF) && IsSingleBit16(LOAD_ACCELERATION)
    ensures IsSingleBit16(ACCELERATION_RELATIVE) && IsSingleBit16(LOAD_VELOCITY)
    ensures IsSingleBit16(VELOCITY_RELATIVE) && IsSingleBit16(LOAD_POSITION)
    ensures IsSingleBit16(POSITION_RELATIVE)
    ensures FORWARD_DIRECTION | VELOCITY_MODE | SMOOTH_STOP | ABRUPT_STOP
            | TURN_MOTOR_OFF | LOAD_ACCELERATION | ACCELERATION_RELATIVE
            | LOAD_VELOCITY | VELOCITY_RELATIVE | LOAD_POSITION
            | POSITION_RELATIVE == 0x1F3F
    ensures FORWARD_DIRECTION as int + VELOCITY_MODE as int + SMOOTH_STOP as int
            + ABRUPT_STOP as int + TURN_MOTOR_OFF as int + LOAD_ACCELERATION as int
            + ACCELERATION_RELATIVE as int + LOAD_VELOCITY as int
            + VELOCITY_RELATIVE as int + LOAD_POSITION as int
            + POSITION_RELATIVE as int == 0x1F3F
  {
  }

  /** The eight status masks are distinct single bits covering the whole
      byte, and the busy flag is bit 0. */
  lemma StatusMasksCoverByte()
    ensures BUSY_BIT == 0x01
    ensures IsSingleBit8(MOTOR_OFF) && IsSingleBit8(BREAKPOINT_REACHED)
    ensures IsSingleBit8(POSITION_ERROR) && IsSingleBit8(WRAP_AROUND)
    ensures IsSingleBit8(INDEX_PULSE) && IsSingleBit8(TRAJECTORY_COMPLETE)
    ensures IsSingleBit8(COMMAND_ERROR) && IsSingleBit8(BUSY_BIT)
    ensures MOTOR_OFF | BREAKPOINT_REACHED | POSITION_ERROR | WRAP_AROUND
            | INDEX_PULSE | TRAJECTORY_COMPLETE | COMMAND_ERROR | BUSY_BIT == 0xFF
    ensures MOTOR_OFF as int + BREAKPOINT_REACHED as int + POSITION_ERROR as int
            + WRAP_AROUND as int + INDEX_PULSE as int + TRAJECTORY_COMPLETE as int
            + COMMAND_ERROR as int + BUSY_BIT as int == 0xFF
  {
  }

  /** The signals-register masks of the upper byte are distinct single bits
      covering exactly 0xFF00; direction and velocity mode sit at the same
      bits as in the trajectory control word. */
  lemma SignalMasksUpperByte()
    ensures IsSingleBit16(HOST_INTERRUPT) && IsSingleBit16(ACCELERATION_LOADED)
    ensures IsSingleBit16(FILTER_LOADED) && IsSingleBit16(ON_TARGET)
    ensures IsSingleBit16(TURN_OFF_ON_POS_ERROR) && IsSingleBit16(EIGHT_BIT_MODE)
    ensures HOST_INTERRUPT | ACCELERATION_LOADED | FILTER_LOADED | FORWARD_DIRECTION
            | VELOCITY_MODE | ON_TARGET | TURN_OFF_ON_POS_ERROR | EIGHT_BIT_MODE == 0xFF00
    ensures HOST_INTERRUPT as int + ACCELERATION_LOADED as int + FILTER_LOADED as int
            + FORWARD_DIRECTION as int + VELOCITY_MODE as int + ON_TARGET as int
            + TURN_OFF_ON_POS_ERROR as int + EIGHT_BIT_MODE as int == 0xFF00
    ensures FORWARD_DIRECTION == 0x1000 && VELOCITY_MODE == 0x0800
    ensures ACQUIRE_NEXT_INDEX == BUSY_BIT as bv16
  {
  }

  /** The command mnemonics the driver sends are pairwise distinct; in
      particular the filter-load and trajectory-load opcodes differ. */
  lemma OpcodesDistinct()
    ensures LFIL == 0x1e && LTRJ == 0x1f && LFIL != LTRJ
    ensures UDF == 0x4 && STT == 0x1 && RSTI == 0x1d && RDSIGS == 0xc && RDRP == 0xa
    ensures |{RESET, STT, UDF, RDRP, RDSIGS, RSTI, LFIL, LTRJ}| == 8
  {
  }
}
