/** The kernel's port primitives as the driver uses them: `outb`, `inb`
    and `mdelay`. The device behind the ports answers reads from a fixed
    list of responses, and every access is recorded in a trace. */
module Bus {
  import opened Protocol

  class Ports {
    /** The responses the device has not given yet. */
    var input: seq<Byte>
    /** Every port access and delay so far, oldest first. */
    var trace: seq<Event>

    constructor (responses: seq<Byte>)
      ensures input == responses && trace == []
    {
      input := responses;
      trace := [];
    }

    /** `outb(value, port)`: the port receives the low byte of the value. */
    method Outb(value: int, port: int)
      modifies this
      ensures trace == old(trace) + [Write(port, value % 0x100)]
      ensures input == old(input)
    {
      trace := trace + [Write(port, value % 0x100)];
    }

    /** `inb(port)`: the next response, or a floating bus once they have
        run out. */
    method Inb(port: int) returns (b: Byte)
      modifies this
      ensures b == Next(old(input)) && input == Drop(old(input))
      ensures trace == old(trace) + [Read(port, b)]
    {
      b := Next(input);
      input := Drop(input);
      trace := trace + [Read(port, b)];
    }

    /** `mdelay(ms)` */
    method Mdelay(ms: nat)
      modifies this
      ensures trace == old(trace) + [Delay(ms)]
      ensures input == old(input)
    {
      trace := trace + [Delay(ms)];
    }
  }
}
