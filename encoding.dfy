/** How load_filter and load_trajectory turn a parameter record into the
    bytes written to the data port (src/andi_servo.c), and decoders that
    read those bytes back the way the LM629 interprets them. */
module Encoding {
  import opened Registers
  import opened Protocol

  datatype Option<T> = None | Some(value: T)

  // ---------------------------------------------------------------------
  // Byte extraction, as the driver's masks and shifts do it
  // ---------------------------------------------------------------------

  /** `n >> 8` for a non-negative value. */
  function Shr8(n: nat): nat
  {
    n / 0x100
  }

  lemma SplitLowByte(n: nat)
    ensures n == Shr8(n) * 0x100 + n % 0x100
  {
  }

  /** `(t & 0xFF00) >> 8` on a two's-complement int: with the low byte
      below it, the 16-bit image of `t`. */
  function HighByte(t: int): (b: Byte)
    ensures b * 0x100 + LowByte(t) == t % 0x1_0000
  {
    SplitLowByte(t % 0x1_0000);
    LowByteOfImage(t);
    Shr8(t % 0x1_0000)
  }

  /** `t & 0x00FF` on a two's-complement int: the low byte of the 16-bit
      image, differing from `t` by a multiple of 0x100. */
  function LowByte(t: int): (b: Byte)
    ensures b == (t % 0x1_0000) % 0x100
    ensures (t - b) % 0x100 == 0
  {
    LowByteOfImage(t);
    t % 0x100
  }

  /** The low byte of a value is the low byte of its 16-bit image. */
  lemma LowByteOfImage(t: int)
    ensures t % 0x100 == (t % 0x1_0000) % 0x100
  {
    var q, u := t / 0x1_0000, t % 0x1_0000;
    assert t == q * 0x1_0000 + u;
    assert q * 0x1_0000 == (q * 0x100) * 0x100;
    LowByteShift(q * 0x100, u);
  }

  /** Adding whole multiples of 0x100 leaves the low byte alone. */
  lemma LowByteShift(m: int, u: int)
    ensures (m * 0x100 + u) % 0x100 == u % 0x100
  {
  }

  /** The four bytes `(x & 0xFF000000) >> 24`, `(x & 0x00FF0000) >> 16`,
      `(x & 0x0000FF00) >> 8` and `x & 0x000000FF` of a 32-bit value;
      reassembled most significant first they give its 32-bit image. */
  function QuadBytes(x: int): (q: seq<Byte>)
    ensures |q| == 4
    ensures Assemble32(q) == x % 0x1_0000_0000
  {
    var u: nat := x % 0x1_0000_0000;
    SplitLowByte(u);
    SplitLowByte(Shr8(u));
    SplitLowByte(Shr8(Shr8(u)));
    [Shr8(Shr8(Shr8(u))) % 0x100, Shr8(Shr8(u)) % 0x100, Shr8(u) % 0x100, u % 0x100]
  }

  /** Four bytes, most significant first, read back as a 32-bit value. */
  function Assemble32(q: seq<Byte>): (v: int)
    requires |q| == 4
    ensures 0 <= v < 0x1_0000_0000
  {
    ((q[0] as int * 0x100 + q[1]) * 0x100 + q[2]) * 0x100 + q[3]
  }

  /** Splitting an assembled value gives back its four bytes. */
  lemma AssembleRoundTrip(q: seq<Byte>)
    requires |q| == 4
    ensures QuadBytes(Assemble32(q)) == q
  {
    var a := q[0] as int * 0x100 + q[1];
    var b := a * 0x100 + q[2];
    var v := b * 0x100 + q[3];
    assert Assemble32(q) == v && v % 0x1_0000_0000 == v;
    ShiftOut(b, q[3]);
    ShiftOut(a, q[2]);
    ShiftOut(q[0], q[1]);
    assert Shr8(v) == b && Shr8(b) == a && Shr8(a) == q[0];
  }

  /** The bytes of a value given as four bytes that assemble to it. */
  lemma QuadBytesOf(x: int, q: seq<Byte>)
    requires |q| == 4 && Assemble32(q) == x
    ensures QuadBytes(x) == q
  {
    AssembleRoundTrip(q);
  }

  /** `(m << 8 | d) >> 8` is `m` and its low byte is `d`. */
  lemma ShiftOut(m: nat, d: Byte)
    ensures Shr8(m * 0x100 + d) == m && (m * 0x100 + d) % 0x100 == d
  {
  }

  /** A high and a low byte read back as a 16-bit value. */
  function Word(hi: Byte, lo: Byte): (v: int)
    ensures 0 <= v < 0x1_0000
  {
    hi as int * 0x100 + lo
  }

  /** Masking and shifting a word recover its two bytes. */
  lemma WordSplit(hi: Byte, lo: Byte)
    ensures HighByte(Word(hi, lo)) == hi && LowByte(Word(hi, lo)) == lo
  {
    ShiftOut(hi, lo);
  }

  /** The high and low byte of a 16-bit control word. */
  function WordBytes(w: bv16): (b: seq<Byte>)
    ensures |b| == 2
  {
    [((w & 0xFF00) >> 8) as int, (w & 0x00FF) as int]
  }

  /** Reassembling the two bytes of a control word, and converting back to
      16 bits, gives the word itself. */
  lemma WordBytesRoundTrip(w: bv16)
    ensures Word(WordBytes(w)[0], WordBytes(w)[1]) == w as int
    ensures Word(WordBytes(w)[0], WordBytes(w)[1]) as bv16 == w
  {
  }

  // ---------------------------------------------------------------------
  // Optional fields: 16-bit filter terms and 32-bit trajectory magnitudes
  // ---------------------------------------------------------------------

  /** Filter terms are 16 bits wide on the wire, trajectory magnitudes 32. */
  predicate IsWidth(width: nat) { width == 2 || width == 4 }

  function Modulus(width: nat): int
    requires IsWidth(width)
  {
    if width == 2 then 0x1_0000 else 0x1_0000_0000
  }

  /** A field's bytes, most significant first. */
  function FieldBytes(width: nat, x: int): (b: seq<Byte>)
    requires IsWidth(width)
    ensures |b| == width
  {
    if width == 2 then [HighByte(x), LowByte(x)] else QuadBytes(x)
  }

  /** A field's bytes read back, most significant first. */
  function FieldValue(width: nat, b: seq<Byte>): int
    requires IsWidth(width) && |b| == width
  {
    if width == 2 then Word(b[0], b[1]) else Assemble32(b)
  }

  /** What the chip reads back is the field modulo its width, and the bytes
      depend on nothing else. */
  lemma FieldRoundTrip(width: nat, x: int)
    requires IsWidth(width)
    ensures FieldValue(width, FieldBytes(width, x)) == x % Modulus(width)
    ensures FieldBytes(width, x) == FieldBytes(width, x % Modulus(width))
  {
    if width == 2 {
      WordFieldRoundTrip(x);
    } else {
      assert (x % 0x1_0000_0000) % 0x1_0000_0000 == x % 0x1_0000_0000;
    }
  }

  lemma WordFieldRoundTrip(x: int)
    ensures FieldValue(2, FieldBytes(2, x)) == x % 0x1_0000
    ensures FieldBytes(2, x) == FieldBytes(2, x % 0x1_0000)
  {
  }

  function Count(loads: seq<bool>): nat
  {
    if loads == [] then 0 else (if loads[0] then 1 else 0) + Count(loads[1..])
  }

  /** The bytes of the fields whose load flag is set, in order; a field
      whose flag is clear contributes nothing. */
  function Fields(width: nat, loads: seq<bool>, xs: seq<int>): (b: seq<Byte>)
    requires IsWidth(width) && |loads| == |xs|
    ensures |b| == width * Count(loads)
  {
    if xs == [] then []
    else (if loads[0] then FieldBytes(width, xs[0]) else []) + Fields(width, loads[1..], xs[1..])
  }

  /** What the chip holds per field after a load: the value modulo the
      width when its flag was set, None otherwise. */
  function LoadedFields(width: nat, loads: seq<bool>, xs: seq<int>): (r: seq<Option<int>>)
    requires IsWidth(width) && |loads| == |xs|
    ensures |r| == |xs|
  {
    if xs == [] then []
    else [if loads[0] then Some(xs[0] % Modulus(width)) else None]
         + LoadedFields(width, loads[1..], xs[1..])
  }

  /** A field is held exactly when its load flag was set. */
  lemma {:induction false} LoadedFieldsFollowFlags(width: nat, loads: seq<bool>, xs: seq<int>)
    requires IsWidth(width) && |loads| == |xs|
    ensures forall i | 0 <= i < |xs| :: LoadedFields(width, loads, xs)[i].Some? == loads[i]
    decreases |xs|
  {
    if xs != [] {
      LoadedFieldsFollowFlags(width, loads[1..], xs[1..]);
      var r := LoadedFields(width, loads, xs);
      assert r[1..] == LoadedFields(width, loads[1..], xs[1..]);
      forall i | 1 <= i < |xs|
        ensures r[i].Some? == loads[i]
      {
        assert r[i] == r[1..][i - 1];
      }
    }
  }

  /** How the chip reads optional fields: for each flag in turn, one field
      when it is set; all bytes must be used up. */
  function TakeFields(width: nat, loads: seq<bool>, bytes: seq<Byte>): (r: Option<seq<Option<int>>>)
    requires IsWidth(width)
    ensures r.Some? ==> |r.value| == |loads|
  {
    if loads == [] then (if bytes == [] then Some([]) else None)
    else if !loads[0] then
      match TakeFields(width, loads[1..], bytes)
      case None => None
      case Some(rest) => Some([None] + rest)
    else if |bytes| < width then None
    else
      match TakeFields(width, loads[1..], bytes[width..])
      case None => None
      case Some(rest) => Some([Some(FieldValue(width, bytes[..width]))] + rest)
  }

  lemma {:induction false} TakeFieldsRoundTrip(width: nat, loads: seq<bool>, xs: seq<int>)
    requires IsWidth(width) && |loads| == |xs|
    ensures TakeFields(width, loads, Fields(width, loads, xs)) == Some(LoadedFields(width, loads, xs))
    decreases |xs|
  {
    if xs != [] {
      var tail := Fields(width, loads[1..], xs[1..]);
      TakeFieldsRoundTrip(width, loads[1..], xs[1..]);
      if loads[0] {
        var head := FieldBytes(width, xs[0]);
        FieldRoundTrip(width, xs[0]);
        assert (head + tail)[..width] == head;
        assert (head + tail)[width..] == tail;
      } else {
        assert Fields(width, loads, xs) == tail;
      }
    }
  }

  /** Fields that leave the chip in the same state put the same bytes on
      the wire. */
  lemma {:induction false} FieldsFromLoaded(width: nat, loads: seq<bool>, xs: seq<int>, ys: seq<int>)
    requires IsWidth(width) && |loads| == |xs| == |ys|
    requires LoadedFields(width, loads, xs) == LoadedFields(width, loads, ys)
    ensures Fields(width, loads, xs) == Fields(width, loads, ys)
    decreases |xs|
  {
    if xs != [] {
      assert LoadedFields(width, loads, xs)[0] == LoadedFields(width, loads, ys)[0];
      assert LoadedFields(width, loads[1..], xs[1..]) == LoadedFields(width, loads, xs)[1..];
      assert LoadedFields(width, loads[1..], ys[1..]) == LoadedFields(width, loads, ys)[1..];
      FieldsFromLoaded(width, loads[1..], xs[1..], ys[1..]);
      if loads[0] {
        FieldRoundTrip(width, xs[0]);
        FieldRoundTrip(width, ys[0]);
      }
    }
  }

  // ---------------------------------------------------------------------
  // Filters (load_filter)
  // ---------------------------------------------------------------------

  /** struct LM629_Filter as a value. */
  datatype FilterParams = FilterParams(dterm: int, kp: int, ki: int, kd: int, il: int)

  /** What the LM629 ends up holding after a filter load: the derivative
      sampling byte, and for each term the 16-bit word it was loaded with,
      or None when the term was skipped. */
  datatype ChipFilter = ChipFilter(dtermByte: Byte, kp: Option<int>, ki: Option<int>,
                                   kd: Option<int>, il: Option<int>)

  /** `(dterm - 1) && 0x00FF`: a C logical and, so the byte is a truth
      value and not the low byte of dterm - 1. */
  function DtermByte(dterm: int): (b: Byte)
    ensures b == (if dterm == 1 then 0 else 1)
  {
    if dterm - 1 != 0 && 0x00FF != 0 then 1 else 0
  }

  /** The byte the chip receives equals the evidently meant low byte of
      dterm - 1 exactly when dterm is 1 or dterm is congruent to 2 modulo
      256 (so dterm 257 does not qualify); dterm 5 shows the difference. */
  lemma DtermByteAsWritten(dterm: int)
    ensures DtermByte(dterm) == (dterm - 1) % 0x100 <==> dterm == 1 || (dterm - 1) % 0x100 == 1
    ensures DtermByte(5) == 1 != (5 - 1) % 0x100
  {
  }

  /** The terms in the order the driver sends them. */
  function Terms(f: FilterParams): seq<int>
  {
    [f.kp, f.ki, f.kd, f.il]
  }

  function TermLoads(f: FilterParams): seq<bool>
  {
    [f.kp != 0, f.ki != 0, f.kd != 0, f.il != 0]
  }

  /** The filter control byte: LOAD_Kp, LOAD_Ki, LOAD_Kd and LOAD_Il are set
      exactly for the non-zero terms, and nothing else is. */
  function FilterControlByte(f: FilterParams): (w: bv8)
    ensures (w & LOAD_KP != 0) == (f.kp != 0)
    ensures (w & LOAD_KI != 0) == (f.ki != 0)
    ensures (w & LOAD_KD != 0) == (f.kd != 0)
    ensures (w & LOAD_IL != 0) == (f.il != 0)
    ensures w & 0xF0 == 0
  {
    (if f.kp != 0 then LOAD_KP else 0) | (if f.ki != 0 then LOAD_KI else 0)
    | (if f.kd != 0 then LOAD_KD else 0) | (if f.il != 0 then LOAD_IL else 0)
  }

  /** The flags the chip reads out of a filter control byte. */
  function ControlByteLoads(c: bv8): seq<bool>
  {
    [c & LOAD_KP != 0, c & LOAD_KI != 0, c & LOAD_KD != 0, c & LOAD_IL != 0]
  }

  /** The bytes load_filter writes to the data port, in order: the dterm
      byte, the control byte, then high and low byte of each non-zero
      term in Kp, Ki, Kd, Il order. */
  function FilterPayload(f: FilterParams): (bytes: seq<Byte>)
    ensures |bytes| == 2 + 2 * Count(TermLoads(f))
    ensures bytes[0] == DtermByte(f.dterm) && bytes[1] == FilterControlByte(f) as int
  {
    [DtermByte(f.dterm), FilterControlByte(f) as int] + Fields(2, TermLoads(f), Terms(f))
  }

  /** What a filter load leaves in the chip. */
  function ChipViewOfFilter(f: FilterParams): ChipFilter
  {
    var t := LoadedFields(2, TermLoads(f), Terms(f));
    ChipFilter(DtermByte(f.dterm), t[0], t[1], t[2], t[3])
  }

  /** How the LM629 reads a filter load: the dterm byte, the control byte,
      then one word per control bit, in Kp, Ki, Kd, Il order. */
  function DecodeFilterPayload(bytes: seq<Byte>): Option<ChipFilter>
  {
    if |bytes| < 2 then None
    else
      match TakeFields(2, ControlByteLoads(bytes[1] as bv8), bytes[2..])
      case None => None
      case Some(t) => Some(ChipFilter(bytes[0], t[0], t[1], t[2], t[3]))
  }

  /** Decoding a filter load recovers what the chip holds: the dterm byte
      and each non-zero term modulo 2^16. */
  lemma FilterRoundTrip(f: FilterParams)
    ensures DecodeFilterPayload(FilterPayload(f)) == Some(ChipViewOfFilter(f))
  {
    var bytes := FilterPayload(f);
    assert ControlByteLoads(bytes[1] as bv8) == TermLoads(f);
    assert bytes[2..] == Fields(2, TermLoads(f), Terms(f));
    TakeFieldsRoundTrip(2, TermLoads(f), Terms(f));
  }

  /** Two filters put the same bytes on the wire exactly when they leave the
      chip in the same state; a zero term's value is never sent. */
  lemma FilterPayloadDeterminedByChipView(f: FilterParams, g: FilterParams)
    ensures FilterPayload(f) == FilterPayload(g) <==> ChipViewOfFilter(f) == ChipViewOfFilter(g)
  {
    if FilterPayload(f) == FilterPayload(g) {
      FilterRoundTrip(f);
      FilterRoundTrip(g);
    }
    if ChipViewOfFilter(f) == ChipViewOfFilter(g) {
      var lf, lg := LoadedFields(2, TermLoads(f), Terms(f)), LoadedFields(2, TermLoads(g), Terms(g));
      LoadedFieldsFollowFlags(2, TermLoads(f), Terms(f));
      LoadedFieldsFollowFlags(2, TermLoads(g), Terms(g));
      assert lf == lg;
      assert TermLoads(f) == TermLoads(g);
      assert lf == lg;
      FieldsFromLoaded(2, TermLoads(f), Terms(f), Terms(g));
      assert FilterControlByte(f) == FilterControlByte(g);
    }
  }

  // ---------------------------------------------------------------------
  // Trajectories (load_trajectory)
  // ---------------------------------------------------------------------

  /** struct LM629_Trajectory as a value; a BOOLEAN field is true when it
      is non-zero. */
  datatype TrajectoryParams = TrajectoryParams(
    forwardDir: bool, velocityMode: bool, stopSmooth: bool, stopAbrupt: bool,
    motorOff: bool, loadAcc: bool, loadVel: bool, loadPos: bool,
    accRelative: bool, velRelative: bool, posRelative: bool,
    acc: int, velocity: int, position: int)

  /** What the LM629 ends up holding after a trajectory load: the control
      word and, for each magnitude, the 32-bit value loaded or None. */
  datatype ChipTrajectory = ChipTrajectory(control: bv16, acc: Option<int>,
                                           velocity: Option<int>, position: Option<int>)

  function Flag(b: bool, mask: bv16): bv16 { if b then mask else 0 }

  /** The trajectory control word: the OR of the masks of the flags set,
      so no bit outside the eleven flag bits is ever set. */
  function TrajectoryControlWord(t: TrajectoryParams): (w: bv16)
    ensures w & !0x1F3F == 0
  {
    Flag(t.forwardDir, FORWARD_DIRECTION) | Flag(t.velocityMode, VELOCITY_MODE)
    | Flag(t.stopSmooth, SMOOTH_STOP) | Flag(t.stopAbrupt, ABRUPT_STOP)
    | Flag(t.motorOff, TURN_MOTOR_OFF) | Flag(t.loadAcc, LOAD_ACCELERATION)
    | Flag(t.loadVel, LOAD_VELOCITY) | Flag(t.loadPos, LOAD_POSITION)
    | Flag(t.accRelative, ACCELERATION_RELATIVE) | Flag(t.velRelative, VELOCITY_RELATIVE)
    | Flag(t.posRelative, POSITION_RELATIVE)
  }

  /** The magnitudes in the order the driver sends them. */
  function Magnitudes(t: TrajectoryParams): seq<int>
  {
    [t.acc, t.velocity, t.position]
  }

  function MagnitudeLoads(t: TrajectoryParams): seq<bool>
  {
    [t.loadAcc, t.loadVel, t.loadPos]
  }

  /** The flags the chip reads out of a trajectory control word. */
  function ControlWordLoads(c: bv16): seq<bool>
  {
    [c & LOAD_ACCELERATION != 0, c & LOAD_VELOCITY != 0, c & LOAD_POSITION != 0]
  }

  /** Each of the eleven flags sets its own bit, so every flag can be read
      back from the control word. */
  lemma ControlWordFlags(t: TrajectoryParams)
    ensures var w := TrajectoryControlWord(t);
      && (w & FORWARD_DIRECTION != 0) == t.forwardDir
      && (w & VELOCITY_MODE != 0) == t.velocityMode
      && (w & SMOOTH_STOP != 0) == t.stopSmooth
      && (w & ABRUPT_STOP != 0) == t.stopAbrupt
      && (w & TURN_MOTOR_OFF != 0) == t.motorOff
      && (w & LOAD_ACCELERATION != 0) == t.loadAcc
      && (w & LOAD_VELOCITY != 0) == t.loadVel
      && (w & LOAD_POSITION != 0) == t.loadPos
      && (w & ACCELERATION_RELATIVE != 0) == t.accRelative
      && (w & VELOCITY_RELATIVE != 0) == t.velRelative
      && (w & POSITION_RELATIVE != 0) == t.posRelative
  {
    var w := TrajectoryControlWord(t);
    assert (w & FORWARD_DIRECTION != 0) == t.forwardDir;
    assert (w & VELOCITY_MODE != 0) == t.velocityMode;
    assert (w & SMOOTH_STOP != 0) == t.stopSmooth;
    assert (w & ABRUPT_STOP != 0) == t.stopAbrupt;
    assert (w & TURN_MOTOR_OFF != 0) == t.motorOff;
    assert (w & LOAD_ACCELERATION != 0) == t.loadAcc;
    assert (w & LOAD_VELOCITY != 0) == t.loadVel;
    assert (w & LOAD_POSITION != 0) == t.loadPos;
    assert (w & ACCELERATION_RELATIVE != 0) == t.accRelative;
    assert (w & VELOCITY_RELATIVE != 0) == t.velRelative;
  }

  /** No bit outside 0x1F3F is ever set in a control word. */
  lemma ControlWordRange(t: TrajectoryParams)
    ensures TrajectoryControlWord(t) as int <= 0x1F3F
  {
  }

  /** The chip finds the three load flags where the driver put them. */
  lemma ControlWordLoadsRecovered(t: TrajectoryParams)
    ensures ControlWordLoads(TrajectoryControlWord(t)) == MagnitudeLoads(t)
  {
    ControlWordFlags(t);
  }

  /** The bytes load_trajectory writes to the data port, in order: the
      control word, then acceleration, velocity and position for those
      whose load flag is set. */
  function TrajectoryPayload(t: TrajectoryParams): (bytes: seq<Byte>)
    ensures |bytes| == 2 + 4 * Count(MagnitudeLoads(t))
    ensures bytes[..2] == WordBytes(TrajectoryControlWord(t))
  {
    WordBytes(TrajectoryControlWord(t)) + Fields(4, MagnitudeLoads(t), Magnitudes(t))
  }

  /** What a trajectory load leaves in the chip. */
  function ChipViewOfTrajectory(t: TrajectoryParams): ChipTrajectory
  {
    var m := LoadedFields(4, MagnitudeLoads(t), Magnitudes(t));
    ChipTrajectory(TrajectoryControlWord(t), m[0], m[1], m[2])
  }

  /** How the LM629 reads a trajectory load: the control word, high byte
      first, then one 32-bit value per load flag, in acceleration, velocity,
      position order. */
  function DecodeTrajectoryPayload(bytes: seq<Byte>): Option<ChipTrajectory>
  {
    if |bytes| < 2 then None
    else
      var c := Word(bytes[0], bytes[1]) as bv16;
      match TakeFields(4, ControlWordLoads(c), bytes[2..])
      case None => None
      case Some(m) => Some(ChipTrajectory(c, m[0], m[1], m[2]))
  }

  /** The decoder reads the control word back from its two bytes and uses
      its load flags to read the rest. */
  lemma DecodeTrajectoryParts(w: bv16, rest: seq<Byte>)
    ensures DecodeTrajectoryPayload(WordBytes(w) + rest)
            == match TakeFields(4, ControlWordLoads(w), rest)
               case None => None
               case Some(m) => Some(ChipTrajectory(w, m[0], m[1], m[2]))
  {
    var bytes := WordBytes(w) + rest;
    assert bytes[0] == WordBytes(w)[0] && bytes[1] == WordBytes(w)[1];
    WordBytesRoundTrip(w);
    assert bytes[2..] == rest;
  }

  /** Decoding a trajectory load recovers what the chip holds: the control
      word and each flagged magnitude modulo 2^32. */
  lemma TrajectoryRoundTrip(t: TrajectoryParams)
    ensures DecodeTrajectoryPayload(TrajectoryPayload(t)) == Some(ChipViewOfTrajectory(t))
  {
    DecodeTrajectoryParts(TrajectoryControlWord(t), Fields(4, MagnitudeLoads(t), Magnitudes(t)));
    ControlWordLoadsRecovered(t);
    TakeFieldsRoundTrip(4, MagnitudeLoads(t), Magnitudes(t));
  }

  /** Two trajectories put the same bytes on the wire exactly when they
      leave the chip in the same state: a magnitude whose load flag is clear
      never reaches the wire, whatever its value. */
  lemma TrajectoryPayloadDeterminedByChipView(t: TrajectoryParams, u: TrajectoryParams)
    ensures TrajectoryPayload(t) == TrajectoryPayload(u)
            <==> ChipViewOfTrajectory(t) == ChipViewOfTrajectory(u)
  {
    if TrajectoryPayload(t) == TrajectoryPayload(u) {
      TrajectoryRoundTrip(t);
      TrajectoryRoundTrip(u);
    }
    if ChipViewOfTrajectory(t) == ChipViewOfTrajectory(u) {
      var w := TrajectoryControlWord(t);
      assert w == TrajectoryControlWord(u);
      ControlWordLoadsRecovered(t);
      ControlWordLoadsRecovered(u);
      var mt, mu := LoadedFields(4, MagnitudeLoads(t), Magnitudes(t)), LoadedFields(4, MagnitudeLoads(u), Magnitudes(u));
      assert mt == mu;
      FieldsFromLoaded(4, MagnitudeLoads(t), Magnitudes(t), Magnitudes(u));
    }
  }
}
