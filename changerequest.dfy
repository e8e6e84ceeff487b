// Change requests: the approvals they collect, the tally that decides
// their state, and their export.

module ChangeRequest {
  import opened Common
  import opened RegistrarObject
  import opened Core

  /** An approval of a change request by one approver set. */
  datatype Approval = Approval(
    id: int, state: string, isSigned: bool, isFinalApproval: bool,
    changeRequestID: int, approverSetID: int, signature: string, createdBy: string)

  datatype ApprovalExport = ApprovalExport(
    id: int, state: string, isSigned: bool, isFinalApproval: bool,
    changeRequestID: int, approverSetID: int, signature: string, createdBy: string)

  /** Approval.GetExportVersion: the exported fields of the approval. */
  function ApprovalExportOf(a: Approval): ApprovalExport
  {
    ApprovalExport(a.id, a.state, a.isSigned, a.isFinalApproval, a.changeRequestID,
      a.approverSetID, a.signature, a.createdBy)
  }

  /** The export keeps every exported field, so distinct approvals have
      distinct exports. */
  lemma ApprovalExportInjective(a: Approval, b: Approval)
    requires ApprovalExportOf(a) == ApprovalExportOf(b)
    ensures a == b
  {
  }

  // ---------------------------------------------------------------------
  // The tally of approvals

  /** The counters ReadyForFinalApproval and UpdateState keep. */
  datatype Tally = Tally(numApp: nat, numApproved: nat, numDeclined: nat,
    numNoValidApprovers: nat, numInactiveApproverSet: nat, finalApprovalFound: bool)

  function Count(t: Tally, app: Approval): Tally
  {
    Tally(t.numApp + 1,
      t.numApproved + (if app.state == StateApproved then 1 else 0),
      t.numDeclined + (if app.state == StateDeclined then 1 else 0),
      t.numNoValidApprovers + (if app.state == StateNoValidApprovers then 1 else 0),
      t.numInactiveApproverSet + (if app.state == StateInactiveApproverSet then 1 else 0),
      t.finalApprovalFound || app.isFinalApproval)
  }

  function TallyOf(approvals: seq<Approval>): Tally
  {
    if approvals == [] then Tally(0, 0, 0, 0, 0, false)
    else Count(TallyOf(approvals[..|approvals| - 1]), approvals[|approvals| - 1])
  }

  /** One pass over the approvals counting each state. */
  method CountApprovals(approvals: seq<Approval>) returns (t: Tally)
    ensures t == TallyOf(approvals)
  {
    t := Tally(0, 0, 0, 0, 0, false);
    for i := 0 to |approvals|
      invariant t == TallyOf(approvals[..i])
    {
      assert approvals[..i + 1][..i] == approvals[..i];
      var app := approvals[i];
      t := t.(numApp := t.numApp + 1);
      if app.state == StateApproved {
        t := t.(numApproved := t.numApproved + 1);
      }
      if app.state == StateDeclined {
        t := t.(numDeclined := t.numDeclined + 1);
      }
      if app.state == StateNoValidApprovers {
        t := t.(numNoValidApprovers := t.numNoValidApprovers + 1);
      }
      if app.state == StateInactiveApproverSet {
        t := t.(numInactiveApproverSet := t.numInactiveApproverSet + 1);
      }
      if app.isFinalApproval {
        t := t.(finalApprovalFound := true);
      }
    }
    assert approvals[..|approvals|] == approvals;
  }

  /** The states in which an approval no longer holds up the request. */
  predicate Settled(state: string)
  {
    state == StateApproved || state == StateNoValidApprovers || state == StateInactiveApproverSet
  }

  /** The number of approvals still holding up the request. */
  function Unsettled(approvals: seq<Approval>): nat
  {
    if approvals == [] then 0
    else Unsettled(approvals[..|approvals| - 1]) + (if Settled(approvals[|approvals| - 1].state) then 0 else 1)
  }

  predicate HasFinalApproval(approvals: seq<Approval>)
  {
    exists k :: 0 <= k < |approvals| && approvals[k].isFinalApproval
  }

  predicate HasState(approvals: seq<Approval>, state: string)
  {
    exists k :: 0 <= k < |approvals| && approvals[k].state == state
  }

  /** What the tally counts: every approval once, the settled ones by
      their state, the declined ones among those still unsettled, and
      whether some approval is final. */
  lemma TallyMeaning(approvals: seq<Approval>)
    ensures var t := TallyOf(approvals);
      t.numApp == |approvals|
      && t.numApproved + t.numNoValidApprovers + t.numInactiveApproverSet + Unsettled(approvals) == |approvals|
      && t.numDeclined <= Unsettled(approvals)
      && (t.finalApprovalFound <==> HasFinalApproval(approvals))
      && (t.numDeclined >= 1 <==> HasState(approvals, StateDeclined))
      && (t.numApproved >= 1 <==> HasState(approvals, StateApproved))
  {
    TallyCounts(approvals);
    TallyFlags(approvals);
  }

  lemma {:induction false} TallyCounts(approvals: seq<Approval>)
    ensures var t := TallyOf(approvals);
      t.numApp == |approvals|
      && t.numApproved + t.numNoValidApprovers + t.numInactiveApproverSet + Unsettled(approvals) == |approvals|
      && t.numDeclined <= Unsettled(approvals)
  {
    if approvals != [] {
      TallyCounts(approvals[..|approvals| - 1]);
    }
  }

  lemma {:induction false} TallyFlags(approvals: seq<Approval>)
    ensures var t := TallyOf(approvals);
      (t.finalApprovalFound <==> HasFinalApproval(approvals))
      && (t.numDeclined >= 1 <==> HasState(approvals, StateDeclined))
      && (t.numApproved >= 1 <==> HasState(approvals, StateApproved))
  {
    if approvals != [] {
      TallyFlags(approvals[..|approvals| - 1]);
      HasFinalApprovalLast(approvals);
      HasStateLast(approvals, StateDeclined);
      HasStateLast(approvals, StateApproved);
    }
  }

  lemma HasFinalApprovalLast(approvals: seq<Approval>)
    requires approvals != []
    ensures HasFinalApproval(approvals) <==>
      HasFinalApproval(approvals[..|approvals| - 1]) || approvals[|approvals| - 1].isFinalApproval
  {
    var init := approvals[..|approvals| - 1];
    assert forall k :: 0 <= k < |init| ==> init[k] == approvals[k];
  }

  lemma HasStateLast(approvals: seq<Approval>, state: string)
    requires approvals != []
    ensures HasState(approvals, state) <==>
      HasState(approvals[..|approvals| - 1], state) || approvals[|approvals| - 1].state == state
  {
    var init := approvals[..|approvals| - 1];
    assert forall k :: 0 <= k < |init| ==> init[k] == approvals[k];
  }

  lemma {:induction false} UnsettledZero(approvals: seq<Approval>)
    ensures Unsettled(approvals) == 0 <==> forall k :: 0 <= k < |approvals| ==> Settled(approvals[k].state)
  {
    if approvals != [] {
      var init := approvals[..|approvals| - 1];
      UnsettledZero(init);
      assert forall k :: 0 <= k < |init| ==> init[k] == approvals[k];
    }
  }

  /** The readiness test on a tally. */
  predicate ReadyTally(t: Tally)
  {
    t.numApp == t.numApproved + t.numNoValidApprovers + t.numInactiveApproverSet + 1 && t.finalApprovalFound
  }

  /** ReadyForFinalApproval: all approvals but one are settled and some
      approval is the final one. */
  method ReadyForFinalApproval(approvals: seq<Approval>) returns (r: bool)
    ensures r == ReadyTally(TallyOf(approvals))
  {
    var t := CountApprovals(approvals);
    if t.numApp == t.numApproved + t.numNoValidApprovers + t.numInactiveApproverSet + 1 {
      if t.finalApprovalFound {
        return true;
      }
    }
    return false;
  }

  /** Ready means exactly one approval is unsettled and one is final; the
      unsettled one need not be the final one. */
  lemma ReadyForFinalApprovalIff(approvals: seq<Approval>)
    ensures ReadyTally(TallyOf(approvals)) <==> Unsettled(approvals) == 1 && HasFinalApproval(approvals)
    ensures approvals == [] ==> !ReadyTally(TallyOf(approvals))
  {
    TallyMeaning(approvals);
  }

  // ---------------------------------------------------------------------
  // UpdateState

  /** Where the approvals take a request that is pending approval: approved
      when at least one approval is approved and none is unsettled, declined
      when one is declined, otherwise unchanged. */
  function PendingOutcome(t: Tally): (r: string)
  {
    if t.numApproved >= 1 && t.numApp == t.numApproved + t.numNoValidApprovers + t.numInactiveApproverSet then StateApproved
    else if t.numDeclined >= 1 then StateDeclined
    else StatePendingApproval
  }

  /** Whether UpdateState records a change for a pending request. */
  predicate PendingChanges(t: Tally)
  {
    t.numDeclined >= 1 || ReadyTally(t)
      || (t.numApproved >= 1 && t.numApp == t.numApproved + t.numNoValidApprovers + t.numInactiveApproverSet)
  }

  /** A declined approval declines the request; approval needs one approved
      approval and every approval settled; the two never meet. */
  lemma PendingOutcomeMeaning(approvals: seq<Approval>)
    ensures var r := PendingOutcome(TallyOf(approvals));
      (HasState(approvals, StateDeclined) ==> r == StateDeclined)
      && (r == StateApproved <==>
            (HasState(approvals, StateApproved) && forall k :: 0 <= k < |approvals| ==> Settled(approvals[k].state)))
      && (r == StateDeclined <==> HasState(approvals, StateDeclined))
      && r in {StateApproved, StateDeclined, StatePendingApproval}
  {
    TallyMeaning(approvals);
    UnsettledZero(approvals);
  }

  /** The first required approver set with no approval, if any. */
  function FirstMissingSet(required: seq<int>, approvals: seq<Approval>): (r: Option<int>)
    ensures r.Some? ==> r.value in required && forall k :: 0 <= k < |approvals| ==> approvals[k].approverSetID != r.value
    ensures r.None? <==> forall j :: 0 <= j < |required| ==>
      exists k :: 0 <= k < |approvals| && approvals[k].approverSetID == required[j]
  {
    if required == [] then None
    else if exists k :: 0 <= k < |approvals| && approvals[k].approverSetID == required[0]
    then
      var r := FirstMissingSet(required[1..], approvals);
      assert forall j :: 1 <= j < |required| ==> required[j] == required[1..][j - 1];
      r
    else Some(required[0])
  }

  /** The IDs of the approvals of approver set 1, which become final. */
  function FinalCandidates(approvals: seq<Approval>): (r: seq<int>)
    ensures |r| <= |approvals|
  {
    if approvals == [] then []
    else
      var last := approvals[|approvals| - 1];
      FinalCandidates(approvals[..|approvals| - 1]) + (if last.approverSetID == 1 then [last.id] else [])
  }

  lemma {:induction false} FinalCandidatesMembers(approvals: seq<Approval>, id: int)
    ensures id in FinalCandidates(approvals) <==>
      exists k :: 0 <= k < |approvals| && approvals[k].approverSetID == 1 && approvals[k].id == id
  {
    if approvals != [] {
      var init := approvals[..|approvals| - 1];
      FinalCandidatesMembers(init, id);
      assert forall k :: 0 <= k < |init| ==> init[k] == approvals[k];
    }
  }

  function MissingSetError(setID: int): string
  {
    "unable to find approval for Approver Set " + IntToString(setID)
  }

  function UnknownStateError(state: string): string
  {
    "UpdateState for Change Request at state \"" + state + "\" not implemented"
  }

  method FindMissingSet(required: seq<int>, approvals: seq<Approval>) returns (r: Option<int>)
    ensures r == FirstMissingSet(required, approvals)
  {
    var j := 0;
    while j < |required|
      invariant 0 <= j <= |required|
      invariant FirstMissingSet(required[j..], approvals) == FirstMissingSet(required, approvals)
    {
      var setFound := false;
      for k := 0 to |approvals|
        invariant setFound <==> exists i :: 0 <= i < k && approvals[i].approverSetID == required[j]
      {
        if approvals[k].approverSetID == required[j] {
          setFound := true;
        }
      }
      assert required[j..][1..] == required[j + 1..];
      if !setFound {
        return Some(required[j]);
      }
      j := j + 1;
    }
    return None;
  }

  method CollectFinalCandidates(approvals: seq<Approval>) returns (ids: seq<int>)
    ensures ids == FinalCandidates(approvals)
  {
    ids := [];
    for i := 0 to |approvals|
      invariant ids == FinalCandidates(approvals[..i])
    {
      assert approvals[..i + 1][..i] == approvals[..i];
      if approvals[i].approverSetID == 1 {
        ids := ids + [approvals[i].id];
      }
    }
    assert approvals[..|approvals|] == approvals;
  }

  /** A change request. Object access, database reads and writes,
      notifications and the cascade to the approvals are not part of this
      model; whether the object has a pending revision and which approver
      sets it requires are passed in. */
  class ChangeRequest {
    const id: int
    const registrarObjectType: string
    const registrarObjectID: int
    const initialRevisionID: NullInt64
    const proposedRevisionID: int
    const changeJSON: string
    const changeDiff: string
    const createdBy: string
    var state: string
    var approvals: seq<Approval>

    constructor (id: int, registrarObjectType: string, registrarObjectID: int, initialRevisionID: NullInt64,
                 proposedRevisionID: int, changeJSON: string, changeDiff: string, createdBy: string,
                 state: string, approvals: seq<Approval>)
      ensures this.id == id && this.registrarObjectType == registrarObjectType
      ensures this.registrarObjectID == registrarObjectID && this.initialRevisionID == initialRevisionID
      ensures this.proposedRevisionID == proposedRevisionID && this.changeJSON == changeJSON
      ensures this.changeDiff == changeDiff && this.createdBy == createdBy
      ensures this.state == state && this.approvals == approvals
    {
      this.id := id;
      this.registrarObjectType := registrarObjectType;
      this.registrarObjectID := registrarObjectID;
      this.initialRevisionID := initialRevisionID;
      this.proposedRevisionID := proposedRevisionID;
      this.changeJSON := changeJSON;
      this.changeDiff := changeDiff;
      this.createdBy := createdBy;
      this.state := state;
      this.approvals := approvals;
    }

    predicate IsCancelled()
      reads this
    {
      state == StateCancelled
    }

    /** A change request is never edited through the web interface. */
    function IsEditable(): (r: bool)
      ensures !r
    {
      false
    }

    /** UpdateState for the counting and transition part. A request with
        no pending revision is cancelled; a new request needs an approval
        for every required approver set, then becomes pending and marks the
        approvals of set 1 as final; a pending request follows its tally.
        A recorded change clears the loaded approvals. */
    method UpdateState(hasPendingRevision: bool, requiredSets: seq<int>)
      returns (changesMade: bool, markedFinal: seq<int>, errs: seq<string>)
      modifies this
      ensures old(state) == StateNew && !hasPendingRevision ==>
        state == StateCancelled && changesMade && markedFinal == [] && errs == []
      ensures old(state) == StateNew && hasPendingRevision && FirstMissingSet(requiredSets, old(approvals)).Some? ==>
        state == old(state) && !changesMade && markedFinal == []
        && errs == [MissingSetError(FirstMissingSet(requiredSets, old(approvals)).value)]
      ensures old(state) == StateNew && hasPendingRevision && FirstMissingSet(requiredSets, old(approvals)).None? ==>
        state == StatePendingApproval && changesMade && errs == []
        && markedFinal == FinalCandidates(old(approvals))
      ensures old(state) == StatePendingApproval && !hasPendingRevision ==>
        state == StateCancelled && changesMade && markedFinal == [] && errs == []
      ensures old(state) == StatePendingApproval && hasPendingRevision ==>
        state == PendingOutcome(TallyOf(old(approvals)))
        && changesMade == PendingChanges(TallyOf(old(approvals))) && markedFinal == [] && errs == []
      ensures old(state) != StateNew && old(state) != StatePendingApproval ==>
        state == old(state) && !changesMade && markedFinal == [] && errs == [UnknownStateError(old(state))]
      ensures approvals == if changesMade then [] else old(approvals)
    {
      changesMade := false;
      markedFinal := [];
      errs := [];
      if state == StateNew {
        if !hasPendingRevision {
          state := StateCancelled;
          changesMade := true;
        } else {
          var missing := FindMissingSet(requiredSets, approvals);
          if missing.Some? {
            errs := [MissingSetError(missing.value)];
            return;
          }
          state := StatePendingApproval;
          changesMade := true;
          markedFinal := CollectFinalCandidates(approvals);
        }
      } else if state == StatePendingApproval {
        if !hasPendingRevision {
          state := StateCancelled;
          changesMade := true;
        } else {
          var t := CountApprovals(approvals);
          if t.numDeclined >= 1 {
            state := StateDeclined;
            changesMade := true;
          }
          if t.numApp == t.numApproved + t.numNoValidApprovers + t.numInactiveApproverSet + 1 {
            if t.finalApprovalFound {
              changesMade := true;
            }
          }
          if t.numApproved >= 1 && t.numApp == t.numApproved + t.numNoValidApprovers + t.numInactiveApproverSet {
            state := StateApproved;
            changesMade := true;
          }
        }
      } else {
        errs := [UnknownStateError(state)];
      }
      if changesMade {
        approvals := [];
      }
    }

    /** GetExportVersion: the request's fields, -1 for a missing initial
        revision, and the approvals' exports in order. */
    method GetExportVersion() returns (cre: ChangeRequestExport)
      ensures cre.id == id && cre.state == state
      ensures cre.registrarObjectType == registrarObjectType && cre.registrarObjectID == registrarObjectID
      ensures cre.initialRevisionID == (if initialRevisionID.valid then initialRevisionID.int64 else -1)
      ensures cre.proposedRevisionID == proposedRevisionID && cre.changeJSON == changeJSON
      ensures cre.changeDiff == changeDiff && cre.createdBy == createdBy
      ensures |cre.approvals| == |approvals|
      ensures forall k :: 0 <= k < |approvals| ==> cre.approvals[k] == ApprovalExportOf(approvals[k])
    {
      var initial := if initialRevisionID.valid then initialRevisionID.int64 else -1;
      var exported: seq<ApprovalExport> := [];
      for idx := 0 to |approvals|
        invariant |exported| == idx
        invariant forall k :: 0 <= k < idx ==> exported[k] == ApprovalExportOf(approvals[k])
      {
        exported := exported + [ApprovalExportOf(approvals[idx])];
      }
      cre := ChangeRequestExport(id, state, registrarObjectType, registrarObjectID, initial,
        proposedRevisionID, changeJSON, changeDiff, exported, createdBy);
    }
  }

  /** The pending-approval outcomes of UpdateState never both apply. */
  lemma DeclinedAndApprovedExclusive(approvals: seq<Approval>)
    ensures !(HasState(approvals, StateDeclined)
              && forall k :: 0 <= k < |approvals| ==> Settled(approvals[k].state))
  {
    if HasState(approvals, StateDeclined) {
      var k :| 0 <= k < |approvals| && approvals[k].state == StateDeclined;
      assert !Settled(approvals[k].state);
    }
  }

  datatype ChangeRequestExport = ChangeRequestExport(
    id: int, state: string, registrarObjectType: string, registrarObjectID: int,
    initialRevisionID: int, proposedRevisionID: int, changeJSON: string, changeDiff: string,
    approvals: seq<ApprovalExport>, createdBy: string)

  const ErrCRIDNotSet := "id not set"
  const ErrApprovalIDNotSet := "ID not set"
}
