// Approver set revisions: the export that collects verified approvers and
// their keys, the action menu, the state helpers and the JSON guard. The
// key ring lookups on the collected keys are Keyring.KeysById and
// Keyring.KeysByIdUsage.

module ApproverSetRevision {
  import opened Common
  import opened RegistrarObject
  import opened Keyring

  /** The part of an approver's full export AddVerifiedApprover reads:
      its ID and the armored public key of its current revision. */
  datatype ApproverExportFull = ApproverExportFull(id: int, publicKey: string)

  /** What reading an armored key gives: the entity, or the failure of
      armor.Decode or of openpgp.ReadEntity. OpenPGP parsing itself is not
      modelled. */
  datatype KeyDecode = Decoded(entity: Entity) | ArmorError(msg: string) | EntityError(msg: string)

  /** The outcome addKey reports for a decoded key. */
  function AddKeyError(d: KeyDecode): Option<string>
  {
    match d
    case Decoded(_) => None
    case ArmorError(m) => Some("error decoding block: " + m)
    case EntityError(m) => Some("error reading entity: " + m)
  }

  class RevisionExport {
    const id: int
    var verifiedApprovers: seq<ApproverExportFull>
    var keys: seq<Entity>

    constructor (id: int)
      ensures this.id == id && verifiedApprovers == [] && keys == []
    {
      this.id := id;
      verifiedApprovers := [];
      keys := [];
    }

    /** HasVerifiedApprovers. */
    predicate HasVerifiedApprovers()
      reads this
    {
      |verifiedApprovers| > 0
    }

    /** AddVerifiedApprover: the approver is recorded first, then its key
        (followed by a newline) is read and kept when it parses. A key that
        fails to parse leaves the approver recorded all the same. */
    method AddVerifiedApprover(app: ApproverExportFull, decode: string -> KeyDecode) returns (err: Option<string>)
      modifies this
      ensures verifiedApprovers == old(verifiedApprovers) + [app]
      ensures HasVerifiedApprovers()
      ensures err == AddKeyError(decode(app.publicKey + "\n"))
      ensures keys == old(keys) + (if decode(app.publicKey + "\n").Decoded? then [decode(app.publicKey + "\n").entity] else [])
    {
      verifiedApprovers := verifiedApprovers + [app];
      err := AddKey(app.publicKey, decode);
    }

    /** addKey. */
    method AddKey(key: string, decode: string -> KeyDecode) returns (err: Option<string>)
      modifies this
      ensures verifiedApprovers == old(verifiedApprovers)
      ensures err == AddKeyError(decode(key + "\n"))
      ensures keys == old(keys) + (if decode(key + "\n").Decoded? then [decode(key + "\n").entity] else [])
    {
      var block := decode(key + "\n");
      if block.ArmorError? {
        return Some("error decoding block: " + block.msg);
      }
      if block.EntityError? {
        return Some("error reading entity: " + block.msg);
      }
      keys := keys + [block.entity];
      err := None;
    }
  }

  /** The fields of an approver set revision the menu and helpers read. */
  datatype ApproverSetRevisionRecord = ApproverSetRevisionRecord(
    id: int, approverSetID: int, revisionState: string, desiredState: string)

  predicate IsCancelled(r: ApproverSetRevisionRecord) { r.revisionState == StateCancelled }

  predicate IsEditable(r: ApproverSetRevisionRecord) { r.revisionState == StateNew }

  /** The menu of an approver set revision: four entries while new or
      pending approval, nothing otherwise. */
  predicate ApproverSetRevisionMenu(ret: map<string, string>, r: ApproverSetRevisionRecord, isSelf: bool)
  {
    var t := ApproverSetRevisionType;
    var parent := "View Parent Approver Set";
    (r.revisionState == StateNew ==>
      ret.Keys == {"Start Approval Process", "Cancel Revision", "Update Object State",
                   if isSelf then parent else "View/Edit Approver Set Revision"}
      && ret["Start Approval Process"] == ActionURL(t, r.id, ActionStartApproval)
      && ret["Cancel Revision"] == ActionURL(t, r.id, ActionCancel)
      && ret["Update Object State"] == ActionURL(t, r.id, ActionTriggerUpdate)
      && (isSelf ==> ret[parent] == ViewURL(ApproverSetType, r.approverSetID))
      && (!isSelf ==> ret["View/Edit Approver Set Revision"] == ViewURL(t, r.id)))
    && (r.revisionState == StatePendingApproval ==>
      ret.Keys == {"View Change Request", "Cancel Revision", "Update Object State",
                   if isSelf then parent else "View Approver Set Revision"}
      && ret["View Change Request"] == ActionURL(t, r.id, "gotochangerequest")
      && ret["Cancel Revision"] == ActionURL(t, r.id, ActionCancel)
      && ret["Update Object State"] == ActionURL(t, r.id, ActionTriggerUpdate)
      && (isSelf ==> ret[parent] == ViewURL(ApproverSetType, r.approverSetID))
      && (!isSelf ==> ret["View Approver Set Revision"] == ViewURL(t, r.id)))
    && (r.revisionState != StateNew && r.revisionState != StatePendingApproval ==> ret == map[])
  }

  /** GetActions, entry by entry. */
  method GetActions(r: ApproverSetRevisionRecord, isSelf: bool) returns (ret: map<string, string>)
    ensures ApproverSetRevisionMenu(ret, r, isSelf)
    ensures |ret| == (if r.revisionState == StateNew || r.revisionState == StatePendingApproval then 4 else 0)
  {
    var t := ApproverSetRevisionType;
    ret := map[];
    if r.revisionState == StateNew {
      ret := ret["Start Approval Process" := ActionURL(t, r.id, ActionStartApproval)];
      ret := ret["Cancel Revision" := ActionURL(t, r.id, ActionCancel)];
      if isSelf {
        ret := ret["View Parent Approver Set" := ViewURL(ApproverSetType, r.approverSetID)];
      } else {
        ret := ret["View/Edit Approver Set Revision" := ViewURL(t, r.id)];
      }
      ret := ret["Update Object State" := ActionURL(t, r.id, ActionTriggerUpdate)];
    }
    if r.revisionState == StatePendingApproval {
      ret := ret["View Change Request" := ActionURL(t, r.id, "gotochangerequest")];
      ret := ret["Cancel Revision" := ActionURL(t, r.id, ActionCancel)];
      if isSelf {
        ret := ret["View Parent Approver Set" := ViewURL(ApproverSetType, r.approverSetID)];
      } else {
        ret := ret["View Approver Set Revision" := ViewURL(t, r.id)];
      }
      ret := ret["Update Object State" := ActionURL(t, r.id, ActionTriggerUpdate)];
    }
    assert |ret| == |ret.Keys|;
  }

  /** The menu follows the revision's state: approval can be started
      exactly while the revision is editable, the change request is
      offered exactly once approval has started, and a cancelled revision
      offers nothing. */
  lemma MenuFollowsState(ret: map<string, string>, r: ApproverSetRevisionRecord, isSelf: bool)
    requires ApproverSetRevisionMenu(ret, r, isSelf)
    ensures "Start Approval Process" in ret <==> IsEditable(r)
    ensures "View Change Request" in ret <==> r.revisionState == StatePendingApproval
    ensures "Update Object State" in ret <==> r.revisionState in {StateNew, StatePendingApproval}
    ensures IsCancelled(r) ==> ret == map[]
  {
  }

  const ErrInvalidRevisionID := "invalid revision ID"
  const ErrDiffRevision := "unable to diff a single revision"

  /** ToJSON of the export: refused for an ID that is not positive. */
  function ToJSON<E>(e: E, id: int, marshal: E -> string): (r: Result<string>)
    ensures r.Err? <==> id <= 0
    ensures r.Err? ==> r.msg == ErrInvalidRevisionID
    ensures r.Ok? ==> r.value == marshal(e)
  {
    ExportToJSON(e, id, ErrInvalidRevisionID, marshal)
  }

  /** GetDiff: a single revision has no diff. */
  function GetDiff(): (r: Result<string>)
    ensures r.Err? && r.msg == ErrDiffRevision
  {
    Err(ErrDiffRevision)
  }
}
