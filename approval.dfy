// Approvals: editability, signature checks, the approver-set validity
// decision, the state machine of UpdateState and the attestation download.

module Approval {
  import opened Common
  import opened RegistrarObject
  import opened Core
  import CR = ChangeRequest

  /** The states UpdateState leaves alone. */
  const TerminalStates: set<string> := {StateCancelled, StateApproved, StateDeclined,
    StateSkippedNoValidApprovers, StateSkippedInactiveApproverSet}

  /** IsEditable: an approval can be acted on until it reaches a terminal
      state. */
  function IsEditable(a: CR.Approval): (r: bool)
    ensures r <==> a.state !in TerminalStates
  {
    a.state != StateApproved && a.state != StateDeclined && a.state != StateCancelled
      && a.state != StateSkippedNoValidApprovers && a.state != StateSkippedInactiveApproverSet
  }

  predicate IsCancelled(a: CR.Approval) { a.state == StateCancelled }

  // ---------------------------------------------------------------------
  // CheckSignature

  /** The outcome of CheckSignature: whether the signature is valid, the
      action it carries ("none" unless recognised) and an error. */
  datatype SignatureCheck = SignatureCheck(validSig: bool, action: string, err: Option<string>)

  const ActionNone := "none"

  /** CheckSignature: the attestation's action (when its signature
      verified and it decoded) mapped to approve or decline; the
      verification of the OpenPGP signature is passed in as its outcome. */
  function CheckSignature(attestation: Result<string>): (r: SignatureCheck)
    ensures r.validSig <==> attestation.Ok?
    ensures r.action in {ActionApproved, ActionDeclined, ActionNone}
    ensures r.err == None <==> attestation.Ok? && attestation.value in {ActionApproved, ActionDeclined}
    ensures r.action != ActionNone <==> r.err == None
    ensures r.err == None ==> r.action == attestation.value
  {
    if attestation.Err? then SignatureCheck(false, ActionNone, Some(attestation.msg))
    else if attestation.value == ActionApproved then SignatureCheck(true, ActionApproved, None)
    else if attestation.value == ActionDeclined then SignatureCheck(true, ActionDeclined, None)
    else SignatureCheck(true, ActionNone, Some("unknown approval action " + attestation.value))
  }

  // ---------------------------------------------------------------------
  // CheckValidityOfApproverSet

  /** What the validity check reads of the approval's approver set. */
  datatype ApproverSetView = ApproverSetView(state: string, approverStates: seq<string>)

  /** What the validity check reads of the approval's change request. */
  datatype ChangeRequestView = ChangeRequestView(initialRevisionID: NullInt64,
    registrarObjectType: string, registrarObjectID: int, approvals: seq<CR.Approval>)

  predicate IsBootstrapRequest(cr: ChangeRequestView)
  {
    cr.initialRevisionID.int64 == 1 && (cr.registrarObjectType == ApproverType || cr.registrarObjectType == ApproverSetType)
      && cr.registrarObjectID == 1
  }

  predicate ActiveApprover(state: string)
  {
    state == StateActive || state == StateActivePendingApproval
  }

  predicate HasActiveApprover(appSet: ApproverSetView)
  {
    exists k :: 0 <= k < |appSet.approverStates| && ActiveApprover(appSet.approverStates[k])
  }

  /** The decision of the validity check, in its order: the bootstrap
      request, an inactive set, a set without active approvers, then
      whether this approval may proceed. */
  function Validity(appSet: ApproverSetView, cr: ChangeRequestView, isFinalApproval: bool): (r: string)
    ensures r in {StatePendingApproval, StateInactiveApproverSet, StateNoValidApprovers, StateNew}
  {
    if IsBootstrapRequest(cr) then StatePendingApproval
    else if appSet.state == StateInactive || appSet.state == StateInactivePendingApproval then StateInactiveApproverSet
    else if !HasActiveApprover(appSet) then StateNoValidApprovers
    else if !isFinalApproval || CR.ReadyTally(CR.TallyOf(cr.approvals)) then StatePendingApproval
    else StateNew
  }

  /** An approval waits in new only when it is the final one and the rest
      of the request is not yet settled. */
  lemma ValidityNewOnlyForFinal(appSet: ApproverSetView, cr: ChangeRequestView, isFinalApproval: bool)
    ensures Validity(appSet, cr, isFinalApproval) == StateNew ==>
      isFinalApproval && !(CR.Unsettled(cr.approvals) == 1 && CR.HasFinalApproval(cr.approvals))
    ensures IsBootstrapRequest(cr) ==> Validity(appSet, cr, isFinalApproval) == StatePendingApproval
    ensures !IsBootstrapRequest(cr) && HasActiveApprover(appSet) && !isFinalApproval
      && appSet.state != StateInactive && appSet.state != StateInactivePendingApproval
      ==> Validity(appSet, cr, isFinalApproval) == StatePendingApproval
  {
    CR.ReadyForFinalApprovalIff(cr.approvals);
  }

  /** CheckValidityOfApproverSet: the lookups of the set and the request
      are passed in with their outcomes. */
  method CheckValidityOfApproverSet(appSet: Result<ApproverSetView>, cr: Result<ChangeRequestView>, isFinalApproval: bool)
    returns (r: Result<string>)
    ensures appSet.Err? ==> r == Err(appSet.msg)
    ensures appSet.Ok? && cr.Err? ==> r == Err(cr.msg)
    ensures appSet.Ok? && cr.Ok? ==> r == Ok(Validity(appSet.value, cr.value, isFinalApproval))
  {
    if appSet.Err? {
      return Err(appSet.msg);
    }
    if cr.Err? {
      return Err(cr.msg);
    }
    var approverSet := appSet.value;
    var changeRequest := cr.value;
    if changeRequest.initialRevisionID.int64 == 1
      && (changeRequest.registrarObjectType == ApproverType || changeRequest.registrarObjectType == ApproverSetType) {
      if changeRequest.registrarObjectID == 1 {
        return Ok(StatePendingApproval);
      }
    }
    if approverSet.state == StateInactive || approverSet.state == StateInactivePendingApproval {
      return Ok(StateInactiveApproverSet);
    }
    var foundValidApprover := false;
    for i := 0 to |approverSet.approverStates|
      invariant foundValidApprover <==> exists k :: 0 <= k < i && ActiveApprover(approverSet.approverStates[k])
    {
      if approverSet.approverStates[i] == StateActive || approverSet.approverStates[i] == StateActivePendingApproval {
        foundValidApprover := true;
      }
    }
    if !foundValidApprover {
      return Ok(StateNoValidApprovers);
    }
    if !isFinalApproval {
      return Ok(StatePendingApproval);
    }
    var ready := CR.ReadyForFinalApproval(changeRequest.approvals);
    if ready {
      return Ok(StatePendingApproval);
    }
    return Ok(StateNew);
  }

  // ---------------------------------------------------------------------
  // UpdateState

  /** What UpdateState learns from the system: whether the change request
      is cancelled and its state, the validity check's outcome, the
      signature check's input, and whether the request's object verifies
      (with the errors it reports). */
  datatype Observation = Observation(
    crCancelled: bool, crState: string, validity: Result<string>,
    attestation: Result<string>, hasObject: bool, verifies: bool, verifyErrs: seq<string>)

  /** The result of one UpdateState step. */
  datatype Step = Step(state: string, signature: string, changesMade: bool, cascade: bool, errs: seq<string>)

  function UnknownStateError(state: string): string
  {
    "don't know how to process state " + state
  }

  /** A pending approval with a signature: a verified attestation decides
      approve or decline once the request's object verifies; a failed
      verification with errors discards the signature. */
  function SignedStep(state: string, signature: string, obs: Observation): Step
  {
    var check := CheckSignature(obs.attestation);
    if check.err == None && check.validSig then
      if !obs.hasObject then Step(state, signature, true, false, [])
      else if obs.verifies then
        if check.action == ActionApproved then Step(StateApproved, signature, true, true, [])
        else if check.action == ActionDeclined then Step(StateDeclined, signature, true, true, [])
        else Step(state, signature, true, false, [])
      else if |obs.verifyErrs| != 0 then Step(state, "", true, false, obs.verifyErrs)
      else Step(state, signature, true, false, [])
    else Step(state, signature, false, false, [])
  }

  /** Moving to the validity check's state; cascade tells whether the
      change request is updated afterwards. */
  function ValidityStep(state: string, signature: string, validity: Result<string>, cascade: bool): Step
  {
    if validity.Err? then Step(state, signature, false, false, [validity.msg])
    else if validity.value != state then Step(validity.value, signature, true, cascade, [])
    else Step(state, signature, false, false, [])
  }

  /** The state machine of Approval.UpdateState. */
  function ApprovalStep(state: string, signature: string, obs: Observation): Step
  {
    if state == StateNew then
      if obs.crCancelled then Step(StateCancelled, signature, true, true, [])
      else if obs.crState == StatePendingApproval then ValidityStep(state, signature, obs.validity, true)
      else Step(state, signature, false, false, [])
    else if state == StatePendingApproval then
      if obs.crCancelled then Step(StateCancelled, signature, true, true, [])
      else if |signature| != 0 then SignedStep(state, signature, obs)
      else ValidityStep(state, signature, obs.validity, true)
    else if state == StateNoValidApprovers || state == StateInactiveApproverSet then
      ValidityStep(state, signature, obs.validity, false)
    else if state in TerminalStates then Step(state, signature, false, false, [])
    else Step(state, signature, false, false, [UnknownStateError(state)])
  }

  /** The terminal states make no change, and they are exactly the states
      in which an approval is no longer editable. */
  lemma TerminalStatesStay(a: CR.Approval, obs: Observation)
    requires !IsEditable(a)
    ensures ApprovalStep(a.state, a.signature, obs) == Step(a.state, a.signature, false, false, [])
  {
  }

  /** An approval is approved or declined only from pendingapproval, by a
      verified attestation carrying that action on a request that is not
      cancelled and whose object verifies. */
  lemma DecisionNeedsSignature(state: string, signature: string, obs: Observation)
    requires obs.validity.Ok? ==> obs.validity.value in {StatePendingApproval, StateInactiveApproverSet, StateNoValidApprovers, StateNew}
    requires state !in TerminalStates
    ensures var s := ApprovalStep(state, signature, obs);
      (s.state == StateApproved ==>
        state == StatePendingApproval && !obs.crCancelled && signature != ""
        && obs.attestation == Ok(ActionApproved) && obs.hasObject && obs.verifies)
      && (s.state == StateDeclined ==>
        state == StatePendingApproval && !obs.crCancelled && signature != ""
        && obs.attestation == Ok(ActionDeclined) && obs.hasObject && obs.verifies)
  {
  }

  /** Approval.UpdateState changes state and signature; the database
      writes, notifications and the update of the change request it
      cascades to are not part of this model. */
  class ApprovalObject {
    var state: string
    var signature: string

    constructor (state: string, signature: string)
      ensures this.state == state && this.signature == signature
    {
      this.state := state;
      this.signature := signature;
    }

    method UpdateState(obs: Observation) returns (changesMade: bool, cascade: bool, errs: seq<string>)
      modifies this
      ensures Step(state, signature, changesMade, cascade, errs) == ApprovalStep(old(state), old(signature), obs)
    {
      changesMade := false;
      cascade := false;
      errs := [];
      if state == StateNew {
        if obs.crCancelled {
          state := StateCancelled;
          changesMade := true;
          cascade := true;
        } else if obs.crState == StatePendingApproval {
          changesMade, cascade, errs := ApplyValidity(obs.validity, true);
        }
      } else if state == StatePendingApproval {
        if obs.crCancelled {
          state := StateCancelled;
          changesMade := true;
          cascade := true;
        } else if |signature| != 0 {
          var check := CheckSignature(obs.attestation);
          if check.err == None && check.validSig {
            if obs.hasObject {
              if obs.verifies {
                if check.action == ActionApproved {
                  state := StateApproved;
                  cascade := true;
                } else if check.action == ActionDeclined {
                  state := StateDeclined;
                  cascade := true;
                }
              } else if |obs.verifyErrs| != 0 {
                errs := obs.verifyErrs;
                signature := "";
              }
            }
            changesMade := true;
          }
        } else {
          changesMade, cascade, errs := ApplyValidity(obs.validity, true);
        }
      } else if state == StateNoValidApprovers || state == StateInactiveApproverSet {
        changesMade, cascade, errs := ApplyValidity(obs.validity, false);
      } else if state == StateCancelled || state == StateApproved || state == StateDeclined
             || state == StateSkippedNoValidApprovers || state == StateSkippedInactiveApproverSet {
      } else {
        errs := [UnknownStateError(state)];
      }
    }

    /** Moves to the state the validity check found. */
    method ApplyValidity(validity: Result<string>, cascadeOnChange: bool)
      returns (changesMade: bool, cascade: bool, errs: seq<string>)
      modifies this
      ensures Step(state, signature, changesMade, cascade, errs)
        == ValidityStep(old(state), old(signature), validity, cascadeOnChange)
    {
      if validity.Err? {
        return false, false, [validity.msg];
      }
      if validity.value != state {
        state := validity.value;
        return true, cascadeOnChange, [];
      }
      return false, false, [];
    }
  }

  // ---------------------------------------------------------------------
  // Attestations

  /** The attestation an approver downloads and signs. Signatures is
      absent (JSON null) except for the final approval. */
  datatype ApprovalAttestation = ApprovalAttestation(approvalID: int, exportRev: string,
    username: string, action: string, objectType: string, signatures: Option<seq<string>>)

  /** What the attestation needs of the change request; the export of its
      object is passed in as text. */
  datatype AttestationSource = AttestationSource(registrarObjectType: string, exportRev: string,
    approvals: seq<CR.Approval>)

  /** The signatures of the other approvals of the request, in order. */
  function OtherSignatures(approvals: seq<CR.Approval>, id: int): (r: seq<string>)
    ensures |r| <= |approvals|
  {
    if approvals == [] then []
    else
      var last := approvals[|approvals| - 1];
      OtherSignatures(approvals[..|approvals| - 1], id) + (if last.id != id then [last.signature] else [])
  }

  /** The other approvals' signatures are all there: one per approval with
      another ID, so all but one when the approval itself occurs once. */
  lemma {:induction false} OtherSignaturesCount(approvals: seq<CR.Approval>, id: int)
    ensures |OtherSignatures(approvals, id)| == |approvals| - |IdPositions(approvals, id)|
  {
    if approvals != [] {
      var init := approvals[..|approvals| - 1];
      OtherSignaturesCount(init, id);
      var n := |approvals| - 1;
      assert IdPositions(approvals, id) == IdPositions(init, id) + (if approvals[n].id == id then {n} else {});
      assert n !in IdPositions(init, id);
    }
  }

  /** The positions of the approvals with the given ID. */
  function IdPositions(approvals: seq<CR.Approval>, id: int): set<int>
  {
    set k | 0 <= k < |approvals| && approvals[k].id == id
  }

  lemma {:induction false} OtherSignaturesMembers(approvals: seq<CR.Approval>, id: int, sig: string)
    ensures sig in OtherSignatures(approvals, id) <==>
      exists k :: 0 <= k < |approvals| && approvals[k].id != id && approvals[k].signature == sig
  {
    if approvals != [] {
      var init := approvals[..|approvals| - 1];
      OtherSignaturesMembers(init, id, sig);
      assert forall k :: 0 <= k < |init| ==> init[k] == approvals[k];
    }
  }

  function InvalidMethodError(requested: string): string
  {
    "invalid approval method " + requested
  }

  /** GetDownloadAttestation: only approve and decline can be attested;
      the final approval carries the other approvals' signatures. The
      lookup of the change request is passed in with its outcome. */
  method GetDownloadAttestation(a: CR.Approval, username: string, action: string, source: Result<AttestationSource>)
    returns (r: Result<ApprovalAttestation>)
    ensures action != ActionApproved && action != ActionDeclined ==> r == Err(InvalidMethodError(action))
    ensures (action == ActionApproved || action == ActionDeclined) && source.Err? ==> r == Err(source.msg)
    ensures (action == ActionApproved || action == ActionDeclined) && source.Ok? ==>
      r == Ok(ApprovalAttestation(a.id, source.value.exportRev, username, action, source.value.registrarObjectType,
        if a.isFinalApproval then Some(OtherSignatures(source.value.approvals, a.id)) else None))
  {
    if action != ActionApproved && action != ActionDeclined {
      return Err(InvalidMethodError(action));
    }
    if source.Err? {
      return Err(source.msg);
    }
    var cr := source.value;
    var signatures: Option<seq<string>> := None;
    if a.isFinalApproval {
      var sigs: seq<string> := [];
      for i := 0 to |cr.approvals|
        invariant sigs == OtherSignatures(cr.approvals[..i], a.id)
      {
        assert cr.approvals[..i + 1][..i] == cr.approvals[..i];
        if cr.approvals[i].id != a.id {
          sigs := sigs + [cr.approvals[i].signature];
        }
      }
      assert cr.approvals[..|cr.approvals|] == cr.approvals;
      signatures := Some(sigs);
    }
    return Ok(ApprovalAttestation(a.id, cr.exportRev, username, action, cr.registrarObjectType, signatures));
  }

  const ErrAttestationNoID := "unable to export an assertion that has no approval id"

  /** GetDownload: the attestation's JSON text, or "" when it cannot be
      built or has no approval ID; the encoding is passed in. */
  method GetDownload(a: CR.Approval, username: string, action: string, source: Result<AttestationSource>,
                     marshal: ApprovalAttestation -> string)
    returns (r: string)
    ensures action != ActionApproved && action != ActionDeclined ==> r == ""
    ensures a.id <= 0 ==> r == ""
    ensures (action == ActionApproved || action == ActionDeclined) && source.Ok? && a.id > 0 ==>
      r == marshal(ApprovalAttestation(a.id, source.value.exportRev, username, action, source.value.registrarObjectType,
        if a.isFinalApproval then Some(OtherSignatures(source.value.approvals, a.id)) else None))
  {
    var aa := GetDownloadAttestation(a, username, action, source);
    if aa.Err? {
      return "";
    }
    var json := ExportToJSON(aa.value, aa.value.approvalID, ErrAttestationNoID, marshal);
    if json.Err? {
      return "";
    }
    return json.value;
  }
}
