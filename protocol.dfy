/** The register protocol between the driver and one LM629: what a port
    access looks like on the bus, the busy-bit handshake, and the meaning
    of a straight-line sequence of port accesses in which every handshake
    may abort the rest (the CHECK_BUSY early return). */
module Protocol {
  import opened Registers

  /** What `outb` puts on the bus and `inb` gets back. */
  type Byte = b: int | 0 <= b < 0x100

  /** One observable bus event. */
  datatype Event =
    | Write(port: int, value: Byte)
    | Read(port: int, value: Byte)
    | Delay(ms: nat)

  /** One step of a driver routine: OUT(value, port), inb(port), mdelay(ms),
      or CHECK_BUSY on a command port. */
  datatype Action =
    | Out(value: int, port: int)
    | In(port: int)
    | Pause(ms: nat)
    | CheckBusy(port: int)

  /** The effect of running actions against a device: the bus events, the
      bytes the `In` actions fetched (in order), the device responses still
      unread, and the routine's return value (0 or -EBUSY). */
  datatype Run = Run(events: seq<Event>, got: seq<Byte>, rest: seq<Byte>, retval: int)

  // ---------------------------------------------------------------------
  // The device side: a finite script of responses
  // ---------------------------------------------------------------------

  /** What a read returns once the device's scripted responses run out: an
      undriven bus reads as all ones. */
  const FLOATING: Byte := 0xFF

  function Next(input: seq<Byte>): Byte
  {
    if input == [] then FLOATING else input[0]
  }

  function Drop(input: seq<Byte>): seq<Byte>
  {
    if input == [] then [] else input[1..]
  }

  /** The response the i-th read (from 0) sees. */
  function At(input: seq<Byte>, i: nat): Byte
  {
    if i < |input| then input[i] else FLOATING
  }

  /** The part of the input left after k reads. */
  function After(input: seq<Byte>, k: nat): (rest: seq<Byte>)
    ensures |rest| <= |input|
  {
    if k < |input| then input[k..] else []
  }

  /** The status byte's busy bit, bit 0, is set. */
  predicate Busy(status: Byte)
  {
    status % 2 == 1
  }

  /** `inb(command) & BUSY_BIT` is non-zero exactly when the chip is busy. */
  lemma BusyIsBitZero(status: Byte)
    ensures Busy(status) <==> (status as bv8) & BUSY_BIT != 0
  {
  }

  // ---------------------------------------------------------------------
  // The busy-bit handshake (check_busy_bit)
  // ---------------------------------------------------------------------

  /** Up to `tries` reads of the command port, stopping at the first one
      whose busy bit is clear. */
  function Poll(port: int, input: seq<Byte>, tries: nat): (r: Run)
    ensures |r.events| <= tries && r.got == []
    ensures r.retval == 0 || r.retval == -EBUSY
    ensures r.retval == -EBUSY ==> |r.events| == tries
    ensures r.retval == 0 ==> 1 <= |r.events|
    ensures |r.rest| <= |input|
    decreases tries, |input|
  {
    if tries == 0 then Run([], [], input, -EBUSY)
    else
      var status := Next(input);
      if !Busy(status) then Run([Read(port, status)], [], Drop(input), 0)
      else
        var r := Poll(port, Drop(input), tries - 1);
        r.(events := [Read(port, status)] + r.events)
  }

  /** The events of the first `k` reads of `port`. */
  function ReadsOf(port: int, input: seq<Byte>, k: nat): (e: seq<Event>)
    ensures |e| == k
  {
    seq(k, j requires 0 <= j < k => Read(port, At(input, j)))
  }

  /** Reading once more after `k` reads. */
  lemma NextAfter(input: seq<Byte>, k: nat)
    ensures Next(After(input, k)) == At(input, k)
    ensures Drop(After(input, k)) == After(input, k + 1)
  {
    if k + 1 < |input| {
      assert After(input, k)[1..] == input[k + 1..];
    }
  }

  lemma ReadsOfSnoc(port: int, input: seq<Byte>, k: nat)
    ensures ReadsOf(port, input, k) + [Read(port, At(input, k))] == ReadsOf(port, input, k + 1)
  {
  }

  /** A busy read, and the poll goes on with one try fewer. */
  lemma PollBusyStep(port: int, input: seq<Byte>, tries: nat)
    requires tries > 0 && Busy(Next(input))
    ensures var r := Poll(port, Drop(input), tries - 1);
      Poll(port, input, tries) == r.(events := [Read(port, Next(input))] + r.events)
  {
  }

  /** A poll whose first `k` reads see a busy chip is those reads followed
      by a poll of the rest with `k` tries fewer. */
  lemma {:induction false} PollAfterBusy(port: int, input: seq<Byte>, tries: nat, k: nat)
    requires k <= tries && forall j | 0 <= j < k :: Busy(At(input, j))
    ensures var r := Poll(port, After(input, k), tries - k);
      Poll(port, input, tries) == r.(events := ReadsOf(port, input, k) + r.events)
    decreases k
  {
    if k == 0 {
      assert After(input, 0) == input;
      assert ReadsOf(port, input, 0) == [];
    } else {
      PollAfterBusy(port, input, tries, k - 1);
      PollAfterOneMore(port, input, tries, k);
    }
  }

  /** One more busy read extends the prefix of reads by one. */
  lemma PollAfterOneMore(port: int, input: seq<Byte>, tries: nat, k: nat)
    requires 0 < k <= tries && Busy(At(input, k - 1))
    requires var mid := Poll(port, After(input, k - 1), tries - (k - 1));
      Poll(port, input, tries) == mid.(events := ReadsOf(port, input, k - 1) + mid.events)
    ensures var r := Poll(port, After(input, k), tries - k);
      Poll(port, input, tries) == r.(events := ReadsOf(port, input, k) + r.events)
  {
    PollBusyAt(port, input, tries, k - 1);
    ReadsOfSnoc(port, input, k - 1);
    PrefixReads(Poll(port, input, tries), Poll(port, After(input, k - 1), tries - (k - 1)),
                  Poll(port, After(input, k), tries - k),
                  ReadsOf(port, input, k - 1), Read(port, At(input, k - 1)), ReadsOf(port, input, k));
  }

  /** Reads in front of reads in front of a run are one prefix of reads. */
  lemma PrefixReads(p: Run, mid: Run, r: Run, a: seq<Event>, x: Event, b: seq<Event>)
    requires p == mid.(events := a + mid.events)
    requires mid == r.(events := [x] + r.events)
    requires a + [x] == b
    ensures p == r.(events := b + r.events)
  {
    EventsAppend(a, [x], r.events);
  }

  /** The busy read number `k` (from 0), seen from the input left after it. */
  lemma PollBusyAt(port: int, input: seq<Byte>, tries: nat, k: nat)
    requires k < tries && Busy(At(input, k))
    ensures var r := Poll(port, After(input, k + 1), tries - (k + 1));
      Poll(port, After(input, k), tries - k) == r.(events := [Read(port, At(input, k))] + r.events)
  {
    NextAfter(input, k);
    PollBusyStep(port, After(input, k), tries - k);
  }

  /** check_busy_bit returns 0 at the first ready read among its tries. */
  lemma HandshakeReadyAt(port: int, input: seq<Byte>, i: nat)
    requires i < BUSY_RETRY_LIMIT && !Busy(At(input, i))
    requires forall j | 0 <= j < i :: Busy(At(input, j))
    ensures Handshake(port, input) == Run(ReadsOf(port, input, i + 1), [], After(input, i + 1), 0)
  {
    PollAfterBusy(port, input, BUSY_RETRY_LIMIT, i);
    NextAfter(input, i);
    ReadsOfSnoc(port, input, i);
  }

  /** check_busy_bit returns -EBUSY when every try reads busy. */
  lemma HandshakeExhausted(port: int, input: seq<Byte>)
    requires forall j | 0 <= j < BUSY_RETRY_LIMIT :: Busy(At(input, j))
    ensures Handshake(port, input) == Run(ReadsOf(port, input, BUSY_RETRY_LIMIT), [], After(input, BUSY_RETRY_LIMIT), -EBUSY)
  {
    PollAfterBusy(port, input, BUSY_RETRY_LIMIT, BUSY_RETRY_LIMIT);
    assert ReadsOf(port, input, BUSY_RETRY_LIMIT) + [] == ReadsOf(port, input, BUSY_RETRY_LIMIT);
  }

  function Handshake(port: int, input: seq<Byte>): (r: Run)
    ensures 1 <= |r.events| <= BUSY_RETRY_LIMIT && r.got == []
    ensures r.retval == 0 || r.retval == -EBUSY
    ensures r.retval == -EBUSY ==> |r.events| == BUSY_RETRY_LIMIT
  {
    Poll(port, input, BUSY_RETRY_LIMIT)
  }

  /** The i-th read of a poll is the i-th response of the device. */
  lemma {:induction false} PollReadsInOrder(port: int, input: seq<Byte>, tries: nat)
    ensures var r := Poll(port, input, tries);
      && (forall i | 0 <= i < |r.events| :: r.events[i] == Read(port, At(input, i)))
      && r.rest == After(input, |r.events|)
    decreases tries
  {
    if tries > 0 && Busy(Next(input)) {
      PollReadsInOrder(port, Drop(input), tries - 1);
      var s := Poll(port, Drop(input), tries - 1);
      forall i | 0 <= i < |s.events|
        ensures At(Drop(input), i) == At(input, i + 1)
      {
      }
    }
  }

  /** A poll stops at the first response that is not busy: every read but
      the last saw the busy bit set, and a successful poll's last read saw
      it clear. */
  lemma {:induction false} PollStopsAtFirstReady(port: int, input: seq<Byte>, tries: nat)
    ensures var r := Poll(port, input, tries);
      && (forall i | 0 <= i < |r.events| - 1 :: Busy(At(input, i)))
      && (r.retval == 0 ==> !Busy(At(input, |r.events| - 1)))
      && (r.retval != 0 ==> forall i | 0 <= i < tries :: Busy(At(input, i)))
    decreases tries
  {
    if tries > 0 && Busy(Next(input)) {
      PollStopsAtFirstReady(port, Drop(input), tries - 1);
      var s := Poll(port, Drop(input), tries - 1);
      forall i | 0 < i < tries
        ensures At(input, i) == At(Drop(input), i - 1)
      {
      }
    }
  }

  /** check_busy_bit reads at most BUSY_RETRY_LIMIT responses and writes
      nothing; it returns 0 exactly when one of the first BUSY_RETRY_LIMIT
      responses has the busy bit clear, and then stops at the first such;
      otherwise it returns -EBUSY after BUSY_RETRY_LIMIT busy reads. */
  lemma HandshakeContract(port: int, input: seq<Byte>)
    ensures var r := Handshake(port, input);
      && 1 <= |r.events| <= BUSY_RETRY_LIMIT
      && (forall i | 0 <= i < |r.events| :: r.events[i] == Read(port, At(input, i)))
      && (r.retval == 0 <==> exists i | 0 <= i < BUSY_RETRY_LIMIT :: !Busy(At(input, i)))
      && (forall i | 0 <= i < |r.events| - 1 :: Busy(At(input, i)))
      && (r.retval == 0 ==> !Busy(At(input, |r.events| - 1)))
      && (r.retval != 0 ==> r.retval == -EBUSY && |r.events| == BUSY_RETRY_LIMIT)
      && r.rest == After(input, |r.events|)
  {
    var r := Handshake(port, input);
    PollReadsInOrder(port, input, BUSY_RETRY_LIMIT);
    PollStopsAtFirstReady(port, input, BUSY_RETRY_LIMIT);
    if r.retval == 0 {
      var k := |r.events| - 1;
      assert 0 <= k < BUSY_RETRY_LIMIT && !Busy(At(input, k));
    }
  }

  // ---------------------------------------------------------------------
  // Straight-line routines with CHECK_BUSY early returns
  // ---------------------------------------------------------------------

  function Step(a: Action, input: seq<Byte>): (r: Run)
    ensures r.retval == 0 || r.retval == -EBUSY
    ensures |r.rest| <= |input|
  {
    match a
    case Out(value, port) => Run([Write(port, value % 0x100)], [], input, 0)
    case In(port) => Run([Read(port, Next(input))], [Next(input)], Drop(input), 0)
    case Pause(ms) => Run([Delay(ms)], [], input, 0)
    case CheckBusy(port) => Handshake(port, input)
  }

  /** `a` followed by `b`, where `a` succeeded. */
  function Then(a: Run, b: Run): Run
  {
    Run(a.events + b.events, a.got + b.got, b.rest, b.retval)
  }

  /** Events appended in two steps are appended at once. */
  lemma EventsAppend(t: seq<Event>, a: seq<Event>, b: seq<Event>)
    ensures t + a + b == t + (a + b)
  {
  }

  lemma ThenAssociates(a: Run, b: Run, c: Run)
    ensures Then(Then(a, b), c) == Then(a, Then(b, c))
  {
    assert (a.events + b.events) + c.events == a.events + (b.events + c.events);
    assert (a.got + b.got) + c.got == a.got + (b.got + c.got);
  }

  /** Runs the actions in order; a failing handshake returns its -EBUSY from
      the routine and nothing after it happens. */
  function Exec(script: seq<Action>, input: seq<Byte>): (r: Run)
    ensures r.retval == 0 || r.retval == -EBUSY
    ensures |r.rest| <= |input|
    decreases |script|
  {
    if script == [] then Run([], [], input, 0)
    else
      var first := Step(script[0], input);
      if first.retval < 0 then first
      else Then(first, Exec(script[1..], first.rest))
  }

  /** Running `p + q` is running `p` and, unless `p` aborted, then `q`. */
  lemma {:induction false} ExecAppend(p: seq<Action>, q: seq<Action>, input: seq<Byte>)
    ensures var r := Exec(p, input);
      Exec(p + q, input) == if r.retval < 0 then r else Then(r, Exec(q, r.rest))
    decreases |p|
  {
    var pq := p + q;
    if p == [] {
      assert pq == q;
      var r := Exec(q, input);
      assert Then(Run([], [], input, 0), r) == r by {
        assert [] + r.events == r.events;
        assert [] + r.got == r.got;
      }
    } else {
      assert pq[0] == p[0];
      assert pq[1..] == p[1..] + q;
      var first := Step(p[0], input);
      if first.retval >= 0 {
        ExecAppend(p[1..], q, first.rest);
        var mid := Exec(p[1..], first.rest);
        if mid.retval >= 0 {
          ThenAssociates(first, mid, Exec(q, mid.rest));
        }
      }
    }
  }

  // ---------------------------------------------------------------------
  // Observations on scripts and runs
  // ---------------------------------------------------------------------

  predicate IsAccessTo(a: Action, port: int)
  {
    (a.Out? && a.port == port) || (a.In? && a.port == port)
  }

  /** The write event an action makes, if it is a write. */
  function WriteOf(a: Action): seq<Event>
  {
    if a.Out? then [Write(a.port, a.value % 0x100)] else []
  }

  /** The writes a script makes, as bus events. */
  function ScriptWrites(script: seq<Action>): seq<Event>
  {
    if script == [] then [] else WriteOf(script[0]) + ScriptWrites(script[1..])
  }

  function WriteEvent(e: Event): seq<Event>
  {
    if e.Write? then [e] else []
  }

  /** All writes among a sequence of bus events, whatever the port. */
  function AllWrites(events: seq<Event>): seq<Event>
  {
    if events == [] then [] else WriteEvent(events[0]) + AllWrites(events[1..])
  }

  /** The bytes written to `port`, in order. */
  function BytesTo(writes: seq<Event>, port: int): seq<Byte>
  {
    if writes == [] then []
    else
      (if writes[0].Write? && writes[0].port == port then [writes[0].value] else [])
      + BytesTo(writes[1..], port)
  }

  lemma {:induction false} ScriptWritesAppend(a: seq<Action>, b: seq<Action>)
    ensures ScriptWrites(a + b) == ScriptWrites(a) + ScriptWrites(b)
    decreases |a|
  {
    var ab := a + b;
    if a == [] {
      assert ab == b;
    } else {
      assert ab[0] == a[0];
      assert ab[1..] == a[1..] + b;
      ScriptWritesAppend(a[1..], b);
      calc {
        ScriptWrites(ab);
        WriteOf(a[0]) + ScriptWrites(a[1..] + b);
        WriteOf(a[0]) + (ScriptWrites(a[1..]) + ScriptWrites(b));
        (WriteOf(a[0]) + ScriptWrites(a[1..])) + ScriptWrites(b);
      }
    }
  }

  lemma {:induction false} AllWritesAppend(a: seq<Event>, b: seq<Event>)
    ensures AllWrites(a + b) == AllWrites(a) + AllWrites(b)
    decreases |a|
  {
    var ab := a + b;
    if a == [] {
      assert ab == b;
    } else {
      assert ab[0] == a[0];
      assert ab[1..] == a[1..] + b;
      AllWritesAppend(a[1..], b);
      calc {
        AllWrites(ab);
        WriteEvent(a[0]) + AllWrites(a[1..] + b);
        WriteEvent(a[0]) + (AllWrites(a[1..]) + AllWrites(b));
        (WriteEvent(a[0]) + AllWrites(a[1..])) + AllWrites(b);
      }
    }
  }

  lemma {:induction false} BytesToAppend(a: seq<Event>, b: seq<Event>, port: int)
    ensures BytesTo(a + b, port) == BytesTo(a, port) + BytesTo(b, port)
    decreases |a|
  {
    var ab := a + b;
    if a == [] {
      assert ab == b;
    } else {
      assert ab[0] == a[0];
      assert ab[1..] == a[1..] + b;
      BytesToAppend(a[1..], b, port);
      var h := if a[0].Write? && a[0].port == port then [a[0].value] else [];
      calc {
        BytesTo(ab, port);
        h + BytesTo(a[1..] + b, port);
        h + (BytesTo(a[1..], port) + BytesTo(b, port));
        (h + BytesTo(a[1..], port)) + BytesTo(b, port);
      }
    }
  }

  /** A poll writes nothing. */
  lemma {:induction false} PollWritesNothing(port: int, input: seq<Byte>, tries: nat)
    ensures AllWrites(Poll(port, input, tries).events) == []
    decreases tries
  {
    if tries > 0 {
      var status := Next(input);
      if Busy(status) {
        var s := Poll(port, Drop(input), tries - 1);
        PollWritesNothing(port, Drop(input), tries - 1);
        AllWritesAppend([Read(port, status)], s.events);
        assert AllWrites([Read(port, status)]) == [];
      } else {
        assert AllWrites([Read(port, status)]) == [];
      }
    }
  }

  lemma StepWrites(a: Action, input: seq<Byte>)
    ensures AllWrites(Step(a, input).events) == WriteOf(a)
  {
    match a
    case CheckBusy(port) => PollWritesNothing(port, input, BUSY_RETRY_LIMIT);
    case Out(v, p) => assert AllWrites([Write(p, v % 0x100)]) == [Write(p, v % 0x100)];
    case In(p) => assert AllWrites([Read(p, Next(input))]) == [];
    case Pause(ms) => assert AllWrites([Delay(ms)]) == [];
  }

  /** A routine that returns 0 made every write of its script, in order. */
  lemma {:induction false} ExecWritesOnSuccess(script: seq<Action>, input: seq<Byte>)
    requires Exec(script, input).retval == 0
    ensures AllWrites(Exec(script, input).events) == ScriptWrites(script)
    decreases |script|
  {
    if script != [] {
      var first := Step(script[0], input);
      var tail := Exec(script[1..], first.rest);
      StepWrites(script[0], input);
      ExecWritesOnSuccess(script[1..], first.rest);
      AllWritesAppend(first.events, tail.events);
    }
  }

  /** Action k of the script is a handshake that failed after every action
      before it succeeded, and the routine ended there. */
  predicate AbortsAt(script: seq<Action>, input: seq<Byte>, k: int)
  {
    && 0 <= k < |script|
    && script[k].CheckBusy?
    && Exec(script[..k], input).retval == 0
    && Exec(script, input)
       == Then(Exec(script[..k], input), Handshake(script[k].port, Exec(script[..k], input).rest))
  }

  /** An abort point of the script's tail is one of the whole script when
      its first action succeeds. */
  lemma AbortShift(script: seq<Action>, input: seq<Byte>, k: int)
    requires script != [] && Step(script[0], input).retval == 0
    requires AbortsAt(script[1..], Step(script[0], input).rest, k)
    ensures AbortsAt(script, input, k + 1)
  {
    var first := Step(script[0], input);
    var tail := Exec(script[1..], first.rest);
    var pre := script[1..][..k];
    var mid := Exec(pre, first.rest);
    var fail := Handshake(script[1..][k].port, mid.rest);
    assert script[..k + 1] == [script[0]] + pre;
    assert Exec([script[0]], input) == first by {
      assert [script[0]][1..] == [];
      assert first.events + [] == first.events;
      assert first.got + [] == first.got;
    }
    ExecAppend([script[0]], pre, input);
    var prefix := Exec(script[..k + 1], input);
    assert prefix == Then(first, mid);
    calc {
      Exec(script, input);
      Then(first, tail);
      Then(first, Then(mid, fail));
      { ThenAssociates(first, mid, fail); }
      Then(Then(first, mid), fail);
      Then(prefix, fail);
    }
    assert script[k + 1] == script[1..][k];
  }

  lemma {:induction false} ExecFailureHasAbortPoint(script: seq<Action>, input: seq<Byte>)
    requires Exec(script, input).retval != 0
    ensures exists k :: AbortsAt(script, input, k)
    decreases |script|
  {
    var first := Step(script[0], input);
    if first.retval < 0 {
      assert script[..0] == [];
      assert Then(Exec(script[..0], input), first) == first by {
        assert [] + first.events == first.events;
        assert [] + first.got == first.got;
      }
      assert AbortsAt(script, input, 0);
    } else {
      ExecFailureHasAbortPoint(script[1..], first.rest);
      var k :| AbortsAt(script[1..], first.rest, k);
      AbortShift(script, input, k);
    }
  }

  /** A routine that returns -EBUSY does so because some action k, a
      handshake, failed after everything before it succeeded; the writes
      made are exactly those of the actions before k, so nothing is written
      after the failed handshake. */
  lemma ExecAbortsAtFailedCheck(script: seq<Action>, input: seq<Byte>)
    requires Exec(script, input).retval != 0
    ensures exists k ::
      && AbortsAt(script, input, k)
      && AllWrites(Exec(script, input).events) == ScriptWrites(script[..k])
  {
    ExecFailureHasAbortPoint(script, input);
    var k :| AbortsAt(script, input, k);
    var pre := Exec(script[..k], input);
    var fail := Handshake(script[k].port, pre.rest);
    ExecWritesOnSuccess(script[..k], input);
    PollWritesNothing(script[k].port, pre.rest, BUSY_RETRY_LIMIT);
    AllWritesAppend(pre.events, fail.events);
    assert AllWrites(Exec(script, input).events) == ScriptWrites(script[..k]);
  }

  /** Every access to the data port is one of a pair of consecutive
      accesses that directly follows a busy-bit check; `armed` says the
      action just before the script was such a check. */
  predicate PairsGuarded(script: seq<Action>, data: int, armed: bool)
    decreases |script|
  {
    if script == [] then true
    else if IsAccessTo(script[0], data) then
      && armed && |script| >= 2 && IsAccessTo(script[1], data)
      && PairsGuarded(script[2..], data, false)
    else PairsGuarded(script[1..], data, script[0].CheckBusy?)
  }

  /** Whether the last action of `script` is a busy-bit check (`armed` when
      the script is empty). */
  function EndsArmed(script: seq<Action>, armed: bool): bool
  {
    if script == [] then armed else script[|script| - 1].CheckBusy?
  }

  lemma {:induction false} PairsGuardedAppend(a: seq<Action>, b: seq<Action>, data: int, armed: bool)
    requires PairsGuarded(a, data, armed)
    requires PairsGuarded(b, data, EndsArmed(a, armed))
    ensures PairsGuarded(a + b, data, armed)
    decreases |a|
  {
    var ab := a + b;
    if a == [] {
      assert ab == b;
    } else {
      assert ab[0] == a[0];
      if IsAccessTo(a[0], data) {
        assert ab[1] == a[1];
        assert ab[2..] == a[2..] + b;
        assert EndsArmed(a[2..], false) == EndsArmed(a, armed) by {
          if |a| > 2 {
            assert a[2..][|a[2..]| - 1] == a[|a| - 1];
          }
        }
        PairsGuardedAppend(a[2..], b, data, false);
      } else {
        assert ab[1..] == a[1..] + b;
        assert EndsArmed(a[1..], a[0].CheckBusy?) == EndsArmed(a, armed) by {
          if |a| > 1 {
            assert a[1..][|a[1..]| - 1] == a[|a| - 1];
          }
        }
        PairsGuardedAppend(a[1..], b, data, a[0].CheckBusy?);
      }
    }
  }

  lemma ScriptBytesPrefix(script: seq<Action>, k: int, port: int)
    requires 0 <= k <= |script|
    ensures BytesTo(ScriptWrites(script[..k]), port) <= BytesTo(ScriptWrites(script), port)
  {
    assert script == script[..k] + script[k..];
    ScriptWritesAppend(script[..k], script[k..]);
    BytesToAppend(ScriptWrites(script[..k]), ScriptWrites(script[k..]), port);
  }

  /** The bytes that reach `port` when a routine runs are a prefix of the
      bytes its script sends there, and all of them when it returns 0. */
  lemma ExecBytesArePrefix(script: seq<Action>, input: seq<Byte>, port: int)
    ensures BytesTo(AllWrites(Exec(script, input).events), port) <= BytesTo(ScriptWrites(script), port)
    ensures Exec(script, input).retval == 0 ==>
              BytesTo(AllWrites(Exec(script, input).events), port) == BytesTo(ScriptWrites(script), port)
  {
    var writes := AllWrites(Exec(script, input).events);
    if Exec(script, input).retval == 0 {
      ExecWritesOnSuccess(script, input);
    } else {
      ExecAbortsAtFailedCheck(script, input);
      var k :| 0 <= k <= |script| && writes == ScriptWrites(script[..k]);
      ScriptBytesPrefix(script, k, port);
    }
  }

  /** The bytes read from `port`, in order. */
  function ReadsFrom(events: seq<Event>, port: int): seq<Byte>
  {
    if events == [] then []
    else
      (if events[0].Read? && events[0].port == port then [events[0].value] else [])
      + ReadsFrom(events[1..], port)
  }

  lemma {:induction false} ReadsFromAppend(a: seq<Event>, b: seq<Event>, port: int)
    ensures ReadsFrom(a + b, port) == ReadsFrom(a, port) + ReadsFrom(b, port)
    decreases |a|
  {
    var ab := a + b;
    if a == [] {
      assert ab == b;
    } else {
      assert ab[0] == a[0];
      assert ab[1..] == a[1..] + b;
      ReadsFromAppend(a[1..], b, port);
      var h := if a[0].Read? && a[0].port == port then [a[0].value] else [];
      calc {
        ReadsFrom(ab, port);
        h + ReadsFrom(a[1..] + b, port);
        h + (ReadsFrom(a[1..], port) + ReadsFrom(b, port));
        (h + ReadsFrom(a[1..], port)) + ReadsFrom(b, port);
      }
    }
  }

  /** A poll of one port reads nothing from any other. */
  lemma {:induction false} PollReadsOnlyItsPort(port: int, input: seq<Byte>, tries: nat, other: int)
    requires other != port
    ensures ReadsFrom(Poll(port, input, tries).events, other) == []
    decreases tries
  {
    if tries > 0 {
      var status := Next(input);
      assert ReadsFrom([Read(port, status)], other) == [];
      if Busy(status) {
        PollReadsOnlyItsPort(port, Drop(input), tries - 1, other);
        ReadsFromAppend([Read(port, status)], Poll(port, Drop(input), tries - 1).events, other);
      }
    }
  }

  /** Every `In` of the script reads `port` and no handshake polls it. */
  predicate ReadsOnlyData(script: seq<Action>, port: int)
  {
    forall i | 0 <= i < |script| ::
      (script[i].In? ==> script[i].port == port) && (script[i].CheckBusy? ==> script[i].port != port)
  }

  /** The bytes a routine fetched are exactly those read from its data
      port, in order, whether or not it aborted. */
  lemma {:induction false} ExecGotIsDataReads(script: seq<Action>, input: seq<Byte>, port: int)
    requires ReadsOnlyData(script, port)
    ensures Exec(script, input).got == ReadsFrom(Exec(script, input).events, port)
    decreases |script|
  {
    if script != [] {
      var a := script[0];
      var first := Step(a, input);
      assert first.got == ReadsFrom(first.events, port) by {
        match a
        case CheckBusy(p) => PollReadsOnlyItsPort(p, input, BUSY_RETRY_LIMIT, port);
        case Out(v, p) => assert ReadsFrom([Write(p, v % 0x100)], port) == [];
        case In(p) => assert ReadsFrom([Read(p, Next(input))], port) == [Next(input)];
        case Pause(ms) => assert ReadsFrom([Delay(ms)], port) == [];
      }
      if first.retval >= 0 {
        assert ReadsOnlyData(script[1..], port) by {
          forall i | 0 <= i < |script| - 1
            ensures script[1..][i] == script[i + 1]
          {
          }
        }
        ExecGotIsDataReads(script[1..], first.rest, port);
        ReadsFromAppend(first.events, Exec(script[1..], first.rest).events, port);
      }
    }
  }

  // ---------------------------------------------------------------------
  // Running a script one action at a time
  // ---------------------------------------------------------------------

  /** What is left to happen when `done` has happened and `todo` remains. */
  function Pending(done: Run, todo: seq<Action>): Run
  {
    Then(done, Exec(todo, done.rest))
  }

  /** Nothing has happened yet: what is pending is the whole routine. */
  lemma Start(todo: seq<Action>, input: seq<Byte>)
    ensures Pending(Run([], [], input, 0), todo) == Exec(todo, input)
  {
    var r := Exec(todo, input);
    assert [] + r.events == r.events;
    assert [] + r.got == r.got;
  }

  /** Taking one more action that succeeds does not change the outcome. */
  lemma Advance(done: Run, todo: seq<Action>)
    requires todo != [] && Step(todo[0], done.rest).retval == 0
    ensures var step := Step(todo[0], done.rest);
      Pending(Then(done, step), todo[1..]) == Pending(done, todo)
  {
    var step := Step(todo[0], done.rest);
    ThenAssociates(done, step, Exec(todo[1..], step.rest));
  }

  /** Running the routine `p` and then the routine `q`: a negative return
      from `p` ends both, otherwise `q` runs from where `p` stopped. */
  lemma PendingAppend(done: Run, p: seq<Action>, q: seq<Action>)
    ensures var r := Exec(p, done.rest);
      Pending(done, p + q) == if r.retval < 0 then Then(done, r) else Pending(Then(done, r), q)
  {
    var r := Exec(p, done.rest);
    ExecAppend(p, q, done.rest);
    if r.retval >= 0 {
      ThenAssociates(done, r, Exec(q, r.rest));
    }
  }

  /** A failing action ends the routine. */
  lemma Abort(done: Run, todo: seq<Action>)
    requires todo != [] && Step(todo[0], done.rest).retval != 0
    ensures Pending(done, todo) == Then(done, Step(todo[0], done.rest))
  {
  }

  /** Nothing pending: the routine has returned 0. */
  lemma Finished(done: Run)
    ensures Pending(done, []) == Run(done.events, done.got, done.rest, 0)
  {
    assert done.events + [] == done.events;
    assert done.got + [] == done.got;
  }

  // ---------------------------------------------------------------------
  // One-step unfoldings, for reasoning about literal scripts suffix by
  // suffix
  // ---------------------------------------------------------------------

  lemma UnfoldWrites(s: seq<Action>)
    ensures ScriptWrites(s) == if s == [] then [] else WriteOf(s[0]) + ScriptWrites(s[1..])
  {
  }

  lemma UnfoldAllWrites(e: seq<Event>)
    ensures AllWrites(e) == if e == [] then [] else WriteEvent(e[0]) + AllWrites(e[1..])
  {
  }

  lemma UnfoldPairs(s: seq<Action>, data: int, armed: bool)
    ensures PairsGuarded(s, data, armed) ==
      if s == [] then true
      else if IsAccessTo(s[0], data) then
        armed && |s| >= 2 && IsAccessTo(s[1], data) && PairsGuarded(s[2..], data, false)
      else PairsGuarded(s[1..], data, s[0].CheckBusy?)
  {
  }

  lemma UnfoldExec(s: seq<Action>, input: seq<Byte>)
    ensures Exec(s, input) ==
      if s == [] then Run([], [], input, 0)
      else if Step(s[0], input).retval < 0 then Step(s[0], input)
      else Then(Step(s[0], input), Exec(s[1..], Step(s[0], input).rest))
  {
  }
}
