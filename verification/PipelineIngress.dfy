/**
 The raw ingress as the object it is: a credit ledger, a socket and one coalesced
 frame set. Frame buffers are shared byte arrays that are zeroed in place, so the
 contracts say which buffers survive a call: the slot's, and no others.
 */
module PipelineIngressObject {
  import opened Wrappers
  import opened Lifecycle
  import opened CreditLedgerObject
  import opened Words

  // A raw item owns its frame buffers.
  datatype RawItem = RawItem(recordId: int, generation: Generation, frames: seq<array<Byte>>)

  datatype Status = Accepted | Dropped | Coalesced | Raised

  datatype Submission = Submission(status: Status, replaced: Option<int>)

  // An encoded item on the wire: a copy of the frames' bytes.
  datatype Wire = Wire(recordId: int, generation: Generation, frames: seq<seq<Byte>>)

  ghost predicate Zeroed(frames: seq<array<Byte>>)
    reads frames
  {
    forall f :: f in frames ==> forall i :: 0 <= i < f.Length ==> f[i] == 0
  }

  ghost function Bytes(frames: seq<array<Byte>>): (bytes: seq<seq<Byte>>)
    reads frames
    ensures |bytes| == |frames|
  {
    if frames == [] then [] else [frames[0][..]] + Bytes(frames[1..])
  }

  ghost function Buffers(slot: Option<RawItem>): seq<array<Byte>> {
    if slot.None? then [] else slot.value.frames
  }

  // The slot and the item share no buffer.
  ghost predicate Apart(slot: Option<RawItem>, item: RawItem) {
    forall f :: f in Buffers(slot) ==> f !in item.frames
  }

  method Destroy(item: RawItem)
    modifies item.frames
    ensures Zeroed(item.frames)
  {
    var k := 0;
    while k < |item.frames|
      invariant k <= |item.frames|
      invariant forall j :: 0 <= j < k ==> forall i :: 0 <= i < item.frames[j].Length ==> item.frames[j][i] == 0
    {
      var frame := item.frames[k];
      forall i | 0 <= i < frame.Length {
        frame[i] := 0;
      }
      k := k + 1;
    }
  }

  method Encode(item: RawItem) returns (wire: Wire)
    ensures wire == Wire(item.recordId, item.generation, Bytes(item.frames))
  {
    var frames: seq<seq<Byte>> := [];
    var k := |item.frames|;
    assert item.frames[k..] == [];
    while k > 0
      invariant k <= |item.frames| && frames == Bytes(item.frames[k..])
    {
      k := k - 1;
      frames := [item.frames[k][..]] + frames;
      assert item.frames[k..][1..] == item.frames[k + 1..];
    }
    assert item.frames[0..] == item.frames;
    wire := Wire(item.recordId, item.generation, frames);
  }

  class PipelineIngress {
    const credit: CreditLedger
    const dropNewest: bool
    var sent: seq<Wire>
    var slot: Option<RawItem>

    ghost predicate Valid()
      reads this, credit
    {
      credit.Valid()
    }

    constructor (credit: CreditLedger, dropNewest: bool)
      requires credit.Valid()
      ensures Valid() && this.credit == credit && this.dropNewest == dropNewest && sent == [] && slot == None
    {
      this.credit, this.dropNewest, sent, slot := credit, dropNewest, [], None;
    }

    // An item that could not be queued is dropped, or replaces the older coalesced one;
    // whichever of the two is given up is zeroed, the other keeps its bytes.
    method HandleOverload(item: RawItem) returns (r: Submission)
      requires Valid() && Apart(slot, item)
      modifies this`slot, item.frames, Buffers(slot)
      ensures Valid()
      ensures dropNewest ==> r == Submission(Dropped, None) && slot == old(slot) && Zeroed(item.frames)
      ensures dropNewest && slot.Some? ==> Bytes(slot.value.frames) == old(Bytes(slot.value.frames))
      ensures !dropNewest ==> slot == Some(item) && Bytes(item.frames) == old(Bytes(item.frames))
      ensures !dropNewest ==> r == Submission(Coalesced, if old(slot).Some? then Some(old(slot).value.recordId) else None)
      ensures !dropNewest && old(slot).Some? ==> Zeroed(old(slot).value.frames)
    {
      if dropNewest {
        Destroy(item);
        if slot.Some? {
          BytesFrame(slot.value.frames);
        }
        return Submission(Dropped, None);
      }
      var previous := slot;
      var replaced: Option<int> := None;
      if previous.Some? {
        replaced := Some(previous.value.recordId);
        Destroy(previous.value);
        BytesFrame(item.frames);
      }
      slot := Some(item);
      r := Submission(Coalesced, replaced);
    }

    twostate lemma BytesFrame(frames: seq<array<Byte>>)
      requires forall f :: f in frames ==> f[..] == old(f[..])
      ensures Bytes(frames) == old(Bytes(frames))
    {
      if frames != [] {
        BytesFrame(frames[1..]);
      }
    }

    // Takes a credit and tries the socket; the credit of a failed send goes back. The
    // result says how the attempt went, None for no credit or a failed send.
    method TryCredit(generation: Generation, sending: SendOutcome) returns (went: Option<SendOutcome>)
      requires Valid()
      modifies credit
      ensures Valid()
      ensures went == if |old(credit.credits)| < credit.capacity && sending != SendFails then Some(sending) else None
      ensures credit.credits == if went.Some? then old(credit.credits) + multiset{generation} else old(credit.credits)
    {
      var acquired := credit.TryAcquire(generation);
      if !acquired {
        return None;
      }
      if sending == SendFails {
        var _ := credit.ReleaseIfAcquired(generation);
        return None;
      }
      went := Some(sending);
    }

    // A successful send copies the item out and gives up its buffers.
    method Deliver(item: RawItem)
      requires Valid()
      modifies this`sent, item.frames
      ensures Valid()
      ensures sent == old(sent) + [Wire(item.recordId, item.generation, old(Bytes(item.frames)))]
      ensures Zeroed(item.frames)
    {
      var wire := Encode(item);
      sent := sent + [wire];
      Destroy(item);
    }

    // submit once the permit was seen to be live.
    method Queue(item: RawItem, sending: SendOutcome) returns (r: Submission)
      requires Valid() && Apart(slot, item)
      modifies this`slot, this`sent, credit, item.frames, Buffers(slot)
      ensures Valid()
      ensures r.status == if |old(credit.credits)| >= credit.capacity || sending == SendFails then
                            (if dropNewest then Dropped else Coalesced)
                          else if sending == EncodeRaises then Raised else Accepted
      ensures credit.credits == if r.status == Accepted || r.status == Raised
                                then old(credit.credits) + multiset{item.generation} else old(credit.credits)
      ensures sent == if r.status == Accepted
                      then old(sent) + [Wire(item.recordId, item.generation, old(Bytes(item.frames)))] else old(sent)
      ensures r.status == Accepted || r.status == Dropped ==> Zeroed(item.frames)
      ensures r.status == Coalesced ==> slot == Some(item) && Bytes(item.frames) == old(Bytes(item.frames))
      ensures r.status == Coalesced && old(slot).Some? ==> Zeroed(old(slot).value.frames)
      ensures r.replaced == if r.status == Coalesced && old(slot).Some? then Some(old(slot).value.recordId) else None
      ensures r.status != Coalesced ==> slot == old(slot)
      ensures r.status != Coalesced && slot.Some? ==> Bytes(old(slot).value.frames) == old(Bytes(slot.value.frames))
    {
      hide Bytes, Zeroed;
      var went := TryCredit(item.generation, sending);
      BytesFrame(item.frames);
      KeepSlotBytes();
      if went == Some(EncodeRaises) {
        return Submission(Raised, None);
      }
      if went.None? {
        r := HandleOverload(item);
      } else {
        Deliver(item);
        KeepSlotBytes();
        r := Submission(Accepted, None);
      }
    }

    // submit, under a permit that may already be cancelled. A credit is held exactly for
    // an item that went out, or whose encoding raised; a buffer that was given up is
    // zeroed, and the slot's buffers hold what they held.
    method Submit(item: RawItem, cancelled: bool, sending: SendOutcome) returns (r: Submission)
      requires Valid() && Apart(slot, item)
      modifies this`slot, this`sent, credit, item.frames, Buffers(slot)
      ensures Valid()
      ensures r.status == if cancelled then Dropped
                          else if |old(credit.credits)| >= credit.capacity || sending == SendFails then
                            (if dropNewest then Dropped else Coalesced)
                          else if sending == EncodeRaises then Raised else Accepted
      ensures credit.credits == if r.status == Accepted || r.status == Raised
                                then old(credit.credits) + multiset{item.generation} else old(credit.credits)
      ensures sent == if r.status == Accepted
                      then old(sent) + [Wire(item.recordId, item.generation, old(Bytes(item.frames)))] else old(sent)
      ensures r.status == Accepted || r.status == Dropped ==> Zeroed(item.frames)
      ensures r.status == Coalesced ==> slot == Some(item) && Bytes(item.frames) == old(Bytes(item.frames))
      ensures r.status == Coalesced && old(slot).Some? ==> Zeroed(old(slot).value.frames)
      ensures r.replaced == if r.status == Coalesced && old(slot).Some? then Some(old(slot).value.recordId) else None
      ensures r.status != Coalesced ==> slot == old(slot)
      ensures r.status != Coalesced && slot.Some? ==> Bytes(old(slot).value.frames) == old(Bytes(slot.value.frames))
    {
      if cancelled {
        Destroy(item);
        KeepSlotBytes();
        return Submission(Dropped, None);
      }
      r := Queue(item, sending);
    }

    twostate lemma KeepSlotBytes()
      requires slot == old(slot) && slot.Some? ==> forall f :: f in slot.value.frames ==> f[..] == old(f[..])
      ensures slot == old(slot) && slot.Some? ==> Bytes(slot.value.frames) == old(Bytes(slot.value.frames))
    {
      if slot == old(slot) && slot.Some? {
        BytesFrame(slot.value.frames);
      }
    }

    method ClearCoalesced(generation: Option<Generation>)
      requires Valid()
      modifies this`slot, Buffers(slot)
      ensures Valid()
      ensures slot == if old(slot).Some? && (generation.None? || old(slot).value.generation == generation.value)
                      then None else old(slot)
      ensures slot.None? && old(slot).Some? ==> Zeroed(old(slot).value.frames)
      ensures slot.Some? ==> Bytes(slot.value.frames) == old(Bytes(slot.value.frames))
    {
      if slot.None? {
        return;
      }
      var item := slot.value;
      if generation.Some? && item.generation != generation.value {
        return;
      }
      slot := None;
      Destroy(item);
    }

    method HasCoalesced(generation: Option<Generation>) returns (held: bool)
      requires Valid()
      ensures held <==> slot.Some? && (generation.None? || slot.value.generation == generation.value)
    {
      if slot.None? {
        return false;
      }
      held := generation.None? || slot.value.generation == generation.value;
    }

    // flush_coalesced: the slot is emptied exactly when its item went out or had become
    // stale, and an emptied slot's buffers are zeroed.
    method FlushCoalesced(permitGeneration: Generation, cancelled: bool, sending: SendOutcome) returns (r: Option<Submission>)
      requires Valid()
      modifies this`slot, this`sent, credit, Buffers(slot)
      ensures Valid()
      ensures r.None? <==> old(slot).None?
      ensures old(slot).Some? ==>
                var item := old(slot).value;
                var stale := item.generation != permitGeneration || cancelled;
                var hasCredit := |old(credit.credits)| < credit.capacity;
                r == Some(Submission(if stale then Dropped
                                     else if !hasCredit || sending == SendFails then Coalesced
                                     else if sending == EncodeRaises then Raised else Accepted, None))
      ensures r.Some? && (r.value.status == Dropped || r.value.status == Accepted) ==>
                slot == None && Zeroed(old(slot).value.frames)
      ensures r.Some? && (r.value.status == Coalesced || r.value.status == Raised) ==>
                slot == old(slot) && Bytes(slot.value.frames) == old(Bytes(slot.value.frames))
      ensures sent == if r.Some? && r.value.status == Accepted
                      then old(sent) + [Wire(old(slot).value.recordId, old(slot).value.generation,
                                             old(Bytes(slot.value.frames)))]
                      else old(sent)
      ensures credit.credits == if r.Some? && (r.value.status == Accepted || r.value.status == Raised)
                                then old(credit.credits) + multiset{old(slot).value.generation} else old(credit.credits)
    {
      if slot.None? {
        return None;
      }
      var item := slot.value;
      if item.generation != permitGeneration || cancelled {
        slot := None;
        Destroy(item);
        return Some(Submission(Dropped, None));
      }
      var went := TryCredit(item.generation, sending);
      if went == Some(SendOk) {
        Deliver(item);
        slot := None;
        return Some(Submission(Accepted, None));
      }
      KeepSlotBytes();
      r := Some(Submission(if went.None? then Coalesced else Raised, None));
    }
  }
}
