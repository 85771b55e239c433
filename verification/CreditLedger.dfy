/**
 The application-level capacity of one pipeline edge. The dictionary of
 per-generation counts stands for a multiset of credits: one element per credit
 in use.
 */
module CreditLedgerObject {
  import opened Wrappers
  import opened Lifecycle

  datatype LedgerError = ReleasedWithoutAcquisition

  // What becomes of a send under a credit.
  datatype SendOutcome = SendOk | SendFails | EncodeRaises

  class CreditLedger {
    const capacity: nat
    var inUseByGeneration: map<Generation, nat>
    ghost var credits: multiset<Generation>

    ghost predicate Valid()
      reads this
    {
      && |credits| <= capacity
      && (forall g :: g in inUseByGeneration ==> inUseByGeneration[g] > 0)
      && (forall g: Generation ::
            credits[g] == if g in inUseByGeneration then inUseByGeneration[g] else 0)
    }

    constructor (capacity: nat)
      requires capacity > 0
      ensures Valid() && credits == multiset{} && this.capacity == capacity
    {
      this.capacity := capacity;
      inUseByGeneration, credits := map[], multiset{};
    }

    method TryAcquire(generation: Generation) returns (acquired: bool)
      requires Valid()
      modifies this
      ensures Valid()
      ensures acquired <==> |old(credits)| < capacity
      ensures credits == if acquired then old(credits) + multiset{generation} else old(credits)
    {
      var inUse := InUse();
      if inUse >= capacity {
        return false;
      }
      var current := InUseFor(generation);
      inUseByGeneration := inUseByGeneration[generation := current + 1];
      credits := credits + multiset{generation};
      acquired := true;
    }

    method Release(generation: Generation) returns (r: Result<(), LedgerError>)
      requires Valid()
      modifies this
      ensures Valid()
      ensures r.Ok? <==> generation in old(credits)
      ensures credits == old(credits) - multiset{generation}
    {
      var released := ReleaseIfAcquired(generation);
      r := if released then Ok(()) else Err(ReleasedWithoutAcquisition);
    }

    method ReleaseIfAcquired(generation: Generation) returns (released: bool)
      requires Valid()
      modifies this
      ensures Valid()
      ensures released <==> generation in old(credits)
      ensures credits == old(credits) - multiset{generation}
    {
      var current := InUseFor(generation);
      if current <= 0 {
        return false;
      }
      inUseByGeneration :=
        if current == 1 then inUseByGeneration - {generation}
        else inUseByGeneration[generation := current - 1];
      credits := credits - multiset{generation};
      released := true;
    }

    method InUseFor(generation: Generation) returns (n: nat)
      requires Valid()
      ensures n == credits[generation]
    {
      n := if generation in inUseByGeneration then inUseByGeneration[generation] else 0;
    }

    // The sum of the dictionary's values is the number of credits in use.
    method InUse() returns (total: nat)
      requires Valid()
      ensures total == |credits|
    {
      total := 0;
      var left := inUseByGeneration.Keys;
      ghost var counted: multiset<Generation> := multiset{};
      while left != {}
        invariant left <= inUseByGeneration.Keys
        invariant total == |counted|
        invariant forall g: Generation :: counted[g] == if g in left then 0 else credits[g]
        decreases left
      {
        var g :| g in left;
        total := total + inUseByGeneration[g];
        counted := counted[g := inUseByGeneration[g]];
        left := left - {g};
      }
      assert counted == credits;
    }
  }
}
