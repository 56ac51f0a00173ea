/** Per-principal ceiling on calls in flight (sentinelmcp/gateway/limits.py).
    Each call is one atomic step: the guarded bodies never suspend. */
module ConcurrencyLimiter {
  datatype Slots = Slots(active: map<string, int>, peak: map<string, int>)

  const NO_SLOTS := Slots(map[], map[])

  function CountOf(counts: map<string, int>, principal: string): int {
    if principal in counts then counts[principal] else 0
  }

  function ActiveOf(s: Slots, principal: string): int { CountOf(s.active, principal) }

  function PeakOf(s: Slots, principal: string): int { CountOf(s.peak, principal) }

  ghost predicate NonNegative(s: Slots) { forall p :: 0 <= ActiveOf(s, p) }

  predicate HasRoom(s: Slots, max: int, principal: string) { ActiveOf(s, principal) < max }

  function Acquired(s: Slots, principal: string): Slots {
    var current := ActiveOf(s, principal) + 1;
    Slots(s.active[principal := current],
          if current > PeakOf(s, principal) then s.peak[principal := current] else s.peak)
  }

  /** The count never drops below zero. */
  function Released(s: Slots, principal: string): Slots {
    var current := ActiveOf(s, principal);
    s.(active := s.active[principal := if current - 1 < 0 then 0 else current - 1])
  }

  lemma StaysNonNegative(s: Slots, principal: string)
    requires NonNegative(s)
    ensures NonNegative(Acquired(s, principal)) && NonNegative(Released(s, principal))
  {
    forall p ensures 0 <= ActiveOf(Acquired(s, principal), p) && 0 <= ActiveOf(Released(s, principal), p) {
      assert 0 <= ActiveOf(s, p) && 0 <= ActiveOf(s, principal);
    }
  }

  class Limiter {
    const maxConcurrent: int
    var active: map<string, int>
    var peak: map<string, int>

    ghost predicate Valid()
      reads this
    {
      NonNegative(Contents())
    }

    constructor (maxConcurrent: int)
      requires maxConcurrent > 0
      ensures Valid() && this.maxConcurrent == maxConcurrent && Contents() == NO_SLOTS
    {
      this.maxConcurrent := maxConcurrent;
      active, peak := map[], map[];
    }

    function Contents(): Slots
      reads this
    {
      Slots(active, peak)
    }

    method TryAcquire(principal: string) returns (acquired: bool)
      requires Valid()
      modifies this
      ensures Valid()
      ensures acquired <==> (if principal in old(active) then old(active)[principal] else 0) < maxConcurrent
      ensures Contents() == if acquired then Acquired(old(Contents()), principal) else old(Contents())
    {
      StaysNonNegative(Contents(), principal);
      var current := CountOf(active, principal);
      if current >= maxConcurrent {
        return false;
      }
      current := current + 1;
      active := active[principal := current];
      if current > CountOf(peak, principal) {
        peak := peak[principal := current];
      }
      return true;
    }

    method Release(principal: string)
      requires Valid()
      modifies this
      ensures Valid()
      ensures Contents() == Released(old(Contents()), principal)
    {
      StaysNonNegative(Contents(), principal);
      var current := CountOf(active, principal);
      active := active[principal := if current - 1 < 0 then 0 else current - 1];
    }
  }

  /** A release undoes an acquisition for every principal's active count, and
      leaves every peak at the larger of its old value and the new count. */
  lemma ReleaseUndoesAcquire(s: Slots, principal: string, other: string)
    requires ActiveOf(s, principal) >= 0
    ensures ActiveOf(Released(Acquired(s, principal), principal), other) == ActiveOf(s, other)
    ensures var peak := PeakOf(Released(Acquired(s, principal), principal), other);
            if other == principal && ActiveOf(s, principal) + 1 > PeakOf(s, principal)
            then peak == ActiveOf(s, principal) + 1 else peak == PeakOf(s, other)
  {
  }
}
