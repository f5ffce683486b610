/** The hybrid logical clock (src/filesystem/tree/hlc.rs). */
module Clock {
  import opened Domain

  const LOGICAL_RANGE: nat := 0x1_0000
  const PHYSICAL_RANGE: nat := 0x1_0000_0000_0000

  /** The two fields of the clock. */
  datatype Hlc = Hlc(physical: nat, logical: nat)

  /** `(physical << 16) | (logical & 0xFFFF)` on 64 bits. */
  function Pack(c: Hlc): (stamp: nat)
    ensures stamp <= U64_MAX
  {
    (c.physical % PHYSICAL_RANGE) * LOGICAL_RANGE + c.logical % LOGICAL_RANGE
  }

  /** The two halves of a packed stamp, as `observe` takes it apart. */
  function Unpack(stamp: nat): Hlc {
    Hlc(stamp / LOGICAL_RANGE, stamp % LOGICAL_RANGE)
  }

  /** The order in which clocks are meant to grow. */
  predicate Before(a: Hlc, b: Hlc) {
    a.physical < b.physical || (a.physical == b.physical && a.logical < b.logical)
  }

  predicate NotAfter(a: Hlc, b: Hlc) { a == b || Before(a, b) }

  /** Nothing has been lost by packing. */
  predicate InRange(c: Hlc) { c.physical < PHYSICAL_RANGE && c.logical < LOGICAL_RANGE }

  function Advanced(c: Hlc, now: nat): Hlc {
    if now > c.physical then Hlc(now, 0) else Hlc(c.physical, c.logical + 1)
  }

  function Observed(c: Hlc, remote: nat, now: nat): Hlc {
    var r := Unpack(remote);
    var physical := Max(Max(now, c.physical), r.physical);
    var logical :=
      if physical == c.physical && physical == r.physical then Max(c.logical, r.logical)
      else if physical == c.physical then c.logical
      else if physical == r.physical then r.logical
      else 0;
    Hlc(physical, logical)
  }

  class HybridLogicalClock {
    var physical: nat
    var logical: nat

    constructor ()
      ensures Value() == Hlc(0, 0)
    {
      physical, logical := 0, 0;
    }

    function Value(): Hlc
      reads this
    {
      Hlc(physical, logical)
    }

    /** `now` is the system clock, which may have jumped anywhere. */
    method Next(now: nat) returns (stamp: nat)
      modifies this
      ensures Value() == Advanced(old(Value()), now)
      ensures stamp == Pack(Value())
    {
      if now > physical {
        physical := now;
        logical := 0;
      } else {
        logical := logical + 1;
      }
      stamp := Pack(Value());
    }

    method Observe(remote: nat, now: nat)
      modifies this
      ensures Value() == Observed(old(Value()), remote, now)
    {
      var remotePhysical, remoteLogical := remote / LOGICAL_RANGE, remote % LOGICAL_RANGE;
      var newPhysical := Max(Max(now, physical), remotePhysical);
      var newLogical;
      if newPhysical == physical && newPhysical == remotePhysical {
        newLogical := Max(logical, remoteLogical);
      } else if newPhysical == physical {
        newLogical := logical;
      } else if newPhysical == remotePhysical {
        newLogical := remoteLogical;
      } else {
        newLogical := 0;
      }
      physical := newPhysical;
      logical := newLogical;
    }
  }

  // ---------------------------------------------------------------- packing

  lemma UnpackPack(stamp: nat)
    requires stamp <= U64_MAX
    ensures InRange(Unpack(stamp)) && Pack(Unpack(stamp)) == stamp
  {
  }

  /** In range, packed stamps are ordered exactly as the clocks are. */
  lemma PackPreservesOrder(a: Hlc, b: Hlc)
    requires InRange(a) && InRange(b)
    ensures Pack(a) < Pack(b) <==> Before(a, b)
    ensures Pack(a) == Pack(b) <==> a == b
  {
  }

  /**
   * When a packed stamp fails to grow.  With the physical part below 2^48, `next` returns a
   * greater stamp than before exactly when the system clock has moved on or the logical
   * part does not wrap.
   */
  lemma NextStampGrowsIff(c: Hlc, now: nat)
    requires c.physical < PHYSICAL_RANGE && now < PHYSICAL_RANGE
    ensures Pack(Advanced(c, now)) > Pack(c) <==> now > c.physical || (c.logical + 1) % LOGICAL_RANGE != 0
  {
  }

  // ---------------------------------------------------------------- neither behind nor ahead

  /** `next` gives the least pair that is after the clock and not before the system clock. */
  lemma NextIsLeast(c: Hlc, now: nat, x: Hlc)
    ensures Before(c, Advanced(c, now)) && NotAfter(Hlc(now, 0), Advanced(c, now))
    ensures Before(c, x) && NotAfter(Hlc(now, 0), x) ==> NotAfter(Advanced(c, now), x)
  {
  }

  /** `observe` gives the least pair not before the clock, the remote stamp and the system clock. */
  lemma ObservedIsLeast(c: Hlc, remote: nat, now: nat, x: Hlc)
    ensures var seen := Observed(c, remote, now);
            NotAfter(c, seen) && NotAfter(Unpack(remote), seen) && NotAfter(Hlc(now, 0), seen)
    ensures NotAfter(c, x) && NotAfter(Unpack(remote), x) && NotAfter(Hlc(now, 0), x) ==>
              NotAfter(Observed(c, remote, now), x)
  {
  }

  // ---------------------------------------------------------------- whole runs

  datatype Event = Stamp(now: nat) | See(remote: nat, now: nat)

  function After(c: Hlc, e: Event): Hlc {
    match e
    case Stamp(now) => Advanced(c, now)
    case See(remote, now) => Observed(c, remote, now)
  }

  function RunFrom(c: Hlc, events: seq<Event>): Hlc
    decreases |events|
  {
    if events == [] then c else RunFrom(After(c, events[0]), events[1..])
  }

  /**
   * For any interleaving of `next` and `observe` and any system clock: the pair never
   * decreases, exceeds its start once anything has been stamped, and is never below a stamp
   * that has been observed on the way.
   */
  lemma {:induction false} ClockNeverGoesBack(c: Hlc, events: seq<Event>)
    ensures NotAfter(c, RunFrom(c, events))
    ensures (exists i :: 0 <= i < |events| && events[i].Stamp?) ==> Before(c, RunFrom(c, events))
    ensures forall i :: 0 <= i < |events| && events[i].See? ==> NotAfter(Unpack(events[i].remote), RunFrom(c, events))
    decreases |events|
  {
    if events != [] {
      ClockNeverGoesBack(After(c, events[0]), events[1..]);
      forall i | 0 <= i < |events| && events[i].See?
        ensures NotAfter(Unpack(events[i].remote), RunFrom(c, events))
      {
        assert i > 0 ==> events[i] == events[1..][i - 1];
      }
      forall i | 0 <= i < |events| && events[i].Stamp?
        ensures Before(c, RunFrom(c, events))
      {
        assert i > 0 ==> events[i] == events[1..][i - 1];
      }
    }
  }

  /**
   * Later stamps of one clock are greater, whatever it stamps and sees in between: the pair
   * always, and the packed stamp while both pairs fit their bits.
   */
  lemma LaterStampsAreGreater(c: Hlc, between: seq<Event>, now: nat)
    ensures var later := Advanced(RunFrom(c, between), now);
            Before(c, later) && (InRange(c) && InRange(later) ==> Pack(c) < Pack(later))
  {
    ClockNeverGoesBack(c, between + [Stamp(now)]);
    RunFromConcat(c, between, [Stamp(now)]);
    assert (between + [Stamp(now)])[|between|] == Stamp(now);
    if InRange(c) && InRange(Advanced(RunFrom(c, between), now)) {
      PackPreservesOrder(c, Advanced(RunFrom(c, between), now));
    }
  }

  /**
   * The failing case, in a clock that has seen one stamp of a peer: the next stamp within
   * that millisecond is smaller than the one seen, and repeats one 65536 earlier.
   */
  lemma LogicalPartWrapsAround()
    ensures var c := RunFrom(Hlc(0, 0), [See(0x1FFFF, 0)]);
            c == Hlc(1, 0xFFFF) && Pack(Advanced(c, 1)) < Pack(c) && Pack(Advanced(c, 1)) == Pack(Hlc(1, 0))
  {
    assert [See(0x1FFFF, 0)][1..] == [];
    assert RunFrom(Hlc(0, 0), [See(0x1FFFF, 0)]) == Observed(Hlc(0, 0), 0x1FFFF, 0);
  }

  lemma {:induction false} RunFromConcat(c: Hlc, a: seq<Event>, b: seq<Event>)
    ensures RunFrom(c, a + b) == RunFrom(RunFrom(c, a), b)
    decreases |a|
  {
    if a == [] {
      assert a + b == b;
    } else {
      RunFromConcat(After(c, a[0]), a[1..], b);
      assert (a + b)[1..] == a[1..] + b;
    }
  }
}
