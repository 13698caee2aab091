/**
  32-bit tick arithmetic.  The kernel's counters wrap at 2^32; the specifications use an
  unbounded clock, whose low 32 bits are what the kernel sees.
 */
module Ticks {

  const PORT_MAX_DELAY: nat := 0xffff_ffff

  type Tick = t: nat | t < 0x1_0000_0000

  function Wrap(t: nat): Tick { t % 0x1_0000_0000 }

  /** How many times the counter has wrapped by time t. */
  function Epoch(t: nat): nat { t / 0x1_0000_0000 }

  /** TickType_t subtraction. */
  function Elapsed(later: Tick, earlier: Tick): Tick {
    if later >= earlier then later - earlier else later + 0x1_0000_0000 - earlier
  }

  function Plus(a: Tick, b: Tick): Tick {
    if a + b < 0x1_0000_0000 then a + b else a + b - 0x1_0000_0000
  }

  lemma PlusWraps(t: nat, n: Tick)
    ensures Plus(Wrap(t), n) == Wrap(t + n)
    ensures Epoch(t + n) == Epoch(t) + if Wrap(t) + n < 0x1_0000_0000 then 0 else 1
  {
  }

  lemma ElapsedExact(later: nat, earlier: nat)
    requires earlier <= later < earlier + 0x1_0000_0000
    ensures Elapsed(Wrap(later), Wrap(earlier)) == later - earlier
    ensures Epoch(later) == Epoch(earlier) + if Wrap(later) < Wrap(earlier) then 1 else 0
  {
  }
}
