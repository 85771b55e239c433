/**
 The pipeline runtime as the object it is: four ledgers, the ingress and the gate it
 submits under. The waits are one loop over the ledgers.
 */
module BoundedPipelineObject {
  import opened Wrappers
  import opened Lifecycle
  import opened GateModel
  import opened CaptureGateObject
  import opened CreditLedgerObject
  import opened PipelineIngressObject

  // A submission's outcome, or the exception that leaves run_capture.
  datatype Submitted = Submitted(submission: Submission) | Refused(error: GateError) | Stale | EncodingRaised

  // The submission's item went out.
  predicate Went(r: Submitted) {
    r.Submitted? && r.submission.status == Accepted
  }

  // How a submission that the gate admitted ends.
  predicate Ends(r: Submitted, cancelled: bool, hasCredit: bool, dropNewest: bool, sending: SendOutcome) {
    var sends := !cancelled && hasCredit && sending != SendFails;
    && (r.EncodingRaised? <==> sends && sending == EncodeRaises)
    && (Went(r) <==> sends && sending == SendOk)
    && (r.Submitted? && !Went(r) ==>
          r.submission.status == if cancelled || dropNewest then Dropped else Coalesced)
  }

  class BoundedPipeline {
    const gate: CaptureGate
    const credits: seq<CreditLedger>
    const ingress: PipelineIngress

    ghost predicate Valid()
      reads gate, ingress, ingress.credit, credits
    {
      && gate.Valid() && ingress.Valid()
      && |credits| == 4 && credits[0] == ingress.credit
      && (forall k :: 0 <= k < 4 ==> credits[k].Valid())
    }

    constructor (gate: CaptureGate, credits: seq<CreditLedger>, ingress: PipelineIngress)
      requires gate.Valid() && ingress.Valid() && |credits| == 4 && credits[0] == ingress.credit
      requires forall k :: 0 <= k < 4 ==> credits[k].Valid()
      ensures Valid() && this.gate == gate && this.credits == credits && this.ingress == ingress
    {
      this.gate, this.credits, this.ingress := gate, credits, ingress;
    }

    // The four waits in turn, then the slot. `timesOut[k]` says that the deadline passed
    // before wait k could look; while nothing else runs, a wait that finds a credit in use
    // runs into its deadline too.
    method WaitForQuiescence(generation: Generation, timesOut: seq<bool>) returns (quiet: bool)
      requires Valid() && |timesOut| == 4
      ensures quiet <==>
                && (forall k :: 0 <= k < 4 ==> !timesOut[k] && credits[k].credits[generation] == 0)
                && !(ingress.slot.Some? && ingress.slot.value.generation == generation)
    {
      var k := 0;
      while k < 4
        invariant k <= 4
        invariant forall j :: 0 <= j < k ==> !timesOut[j] && credits[j].credits[generation] == 0
      {
        var inUse := credits[k].InUseFor(generation);
        if timesOut[k] || inUse > 0 {
          return false;
        }
        k := k + 1;
      }
      var held := ingress.HasCoalesced(Some(generation));
      quiet := !held;
    }

    // Zeroes the frames of a submission that an exception ended.
    method ZeroFrames(item: RawItem)
      modifies item.frames
      ensures Zeroed(item.frames)
    {
      Destroy(item);
    }

    // What a submission does while its gate operation is registered.
    method SubmitUnder(permit: Generation, item: RawItem, cancelled: bool, sending: SendOutcome) returns (r: Submitted)
      requires ingress.Valid() && Apart(ingress.slot, item)
      modifies ingress`slot, ingress`sent, ingress.credit, item.frames, Buffers(ingress.slot)
      ensures ingress.Valid() && !r.Refused? && (r.Stale? <==> permit != item.generation)
      ensures r.Stale? ==> ingress.slot == old(ingress.slot) && ingress.sent == old(ingress.sent)
                           && ingress.credit.credits == old(ingress.credit.credits)
      ensures !r.Submitted? || r.submission.status == Accepted || r.submission.status == Dropped ==> Zeroed(item.frames)
      ensures r.Submitted? ==> r.submission.status != Raised
      ensures r.Submitted? && r.submission.status == Coalesced ==> ingress.slot == Some(item)
      ensures r.Submitted? || r.EncodingRaised? ==>
                Ends(r, cancelled, |old(ingress.credit.credits)| < ingress.credit.capacity, ingress.dropNewest, sending)
      ensures ingress.credit.credits
           == if Went(r) || r.EncodingRaised? then old(ingress.credit.credits) + multiset{item.generation}
              else old(ingress.credit.credits)
      ensures ingress.sent == if Went(r) then old(ingress.sent) + [Wire(item.recordId, item.generation, old(Bytes(item.frames)))]
                              else old(ingress.sent)
      ensures !(r.Submitted? && r.submission.status == Coalesced) ==> ingress.slot == old(ingress.slot)
    {
      if permit != item.generation {
        ZeroFrames(item);
        return Stale;
      }
      var submission := ingress.Submit(item, cancelled, sending);
      if submission.status == Raised {
        ZeroFrames(item);
        return EncodingRaised;
      }
      r := Submitted(submission);
    }

    // The gate operation of a submission, and what releasing it will restore.
    method Enter() returns (permit: Result<Permit, GateError>)
      requires gate.Valid() && GateInv(gate.View())
      modifies gate`inFlight, gate`counts, gate`cancelEvents
      ensures gate.Valid() && (permit.Ok? <==> gate.state == Recording)
      ensures permit.Err? ==> gate.View() == old(gate.View())
      ensures permit.Ok? ==> gate.active == Some(permit.value.generation)
                             && Release(gate.View(), permit.value.generation) == old(gate.View())
    {
      hide AcquireCapture, Release, GateInv;
      RegisteredAndReleased(gate.View());
      permit := gate.AcquireCapture();
    }

    // submit_raw under run_capture: the gate operation is registered before and released
    // after, so the gate is as it was; a submission that ends in an exception has its
    // frames zeroed.
    method SubmitRaw(item: RawItem, cancelled: bool, sending: SendOutcome) returns (r: Submitted)
      requires Valid() && GateInv(gate.View()) && Apart(ingress.slot, item)
      modifies gate`inFlight, gate`counts, gate`cancelEvents
      modifies ingress`slot, ingress`sent, ingress.credit, item.frames, Buffers(ingress.slot)
      ensures gate.Valid() && ingress.Valid() && gate.View() == old(gate.View())
      ensures r.Refused? <==> old(gate.state) != Recording
      ensures r.Stale? <==> old(gate.state) == Recording && old(gate.active) != Some(item.generation)
      ensures r.Refused? || r.Stale? ==> ingress.slot == old(ingress.slot) && ingress.sent == old(ingress.sent)
                                         && ingress.credit.credits == old(ingress.credit.credits)
      ensures !r.Submitted? || r.submission.status == Accepted || r.submission.status == Dropped ==> Zeroed(item.frames)
      ensures r.Submitted? ==> r.submission.status != Raised
      ensures r.Submitted? && r.submission.status == Coalesced ==> ingress.slot == Some(item)
      ensures r.Submitted? || r.EncodingRaised? ==>
                Ends(r, cancelled, |old(ingress.credit.credits)| < ingress.credit.capacity, ingress.dropNewest, sending)
      ensures ingress.credit.credits
           == if Went(r) || r.EncodingRaised? then old(ingress.credit.credits) + multiset{item.generation}
              else old(ingress.credit.credits)
      ensures ingress.sent == if Went(r) then old(ingress.sent) + [Wire(item.recordId, item.generation, old(Bytes(item.frames)))]
                              else old(ingress.sent)
      ensures !(r.Submitted? && r.submission.status == Coalesced) ==> ingress.slot == old(ingress.slot)
    {
      hide Release, GateInv, Bytes, Zeroed, Ends, CaptureGate.View, CaptureGate.Valid;
      var permit := Enter();
      if permit.Err? {
        ZeroFrames(item);
        return Refused(permit.error);
      }
      r := SubmitUnder(permit.value.generation, item, cancelled, sending);
      gate.ReleaseOperation(permit.value.generation);
    }

    // An operation that comes and goes leaves the gate as it was.
    lemma RegisteredAndReleased(g: Gate)
      requires GateInv(g)
      ensures var called := AcquireCapture(g);
              && (called.result.Ok? <==> g.c.state == Recording)
              && if called.result.Ok? then
                g.c.active == Some(called.result.value.generation) && Release(called.gate, called.result.value.generation) == g
              else called.gate == g
    {
      if AcquireCapture(g).result.Ok? {
        var v := g.c.active.value;
        assert g.w.inFlight + multiset{v} - multiset{v} == g.w.inFlight;
      }
    }
  }
}
