// API user revisions: the export, the field-by-field comparisons against
// a revision and against another export, the action menu and the JSON
// guard. GetState and HasHappened are RegistrarObject.RevisionFormState and
// RegistrarObject.HasHappened.

module APIUserRevision {
  import opened Common
  import opened RegistrarObject
  import opened Core
  import opened ApproverSet

  /** An API user revision, with its times as numbers. */
  datatype APIUserRevisionRecord = APIUserRevisionRecord(
    id: int, apiUserID: int, revisionState: string, desiredState: string,
    name: string, description: string, serial: string, certificate: string, savedNotes: string,
    isAdmin: bool, isEPPClient: bool,
    requiredApproverSets: seq<ApproverSetRecord>, informedApproverSets: seq<ApproverSetRecord>,
    crid: NullInt64, issueCR: string, notes: string, createdAt: int, createdBy: string,
    times: RevisionTimes)

  /** APIUserRevisionExport. */
  datatype APIUserRevisionExport = APIUserRevisionExport(
    id: int, apiUserID: int, desiredState: string,
    name: string, description: string, serial: string, certificate: string, savedNotes: string,
    isAdmin: bool, isEPPClient: bool, changeRequestID: int, issueCR: string, notes: string,
    requiredApproverSets: seq<ApproverSetExportShort>, informedApproverSets: seq<ApproverSetExportShort>,
    createdAt: int, createdBy: string)

  /** The fields both comparisons check one by one, in their order. */
  datatype ComparedFields = ComparedFields(
    id: int, apiUserID: int, desiredState: string,
    name: string, description: string, serial: string, certificate: string, savedNotes: string,
    isAdmin: bool, isEPPClient: bool, issueCR: string, notes: string)

  function RevisionFields(r: APIUserRevisionRecord): ComparedFields
  {
    ComparedFields(r.id, r.apiUserID, r.desiredState, r.name, r.description, r.serial, r.certificate,
                   r.savedNotes, r.isAdmin, r.isEPPClient, r.issueCR, r.notes)
  }

  function ExportFields(e: APIUserRevisionExport): ComparedFields
  {
    ComparedFields(e.id, e.apiUserID, e.desiredState, e.name, e.description, e.serial, e.certificate,
                   e.savedNotes, e.isAdmin, e.isEPPClient, e.issueCR, e.notes)
  }

  /** The fourteen checks of Compare and CompareExport, with their
      messages as written: the API user ID, the description and the
      certificate are reported under the approver's field names
      ("ApproverID", "EmailAddress", "Role"). The two approver set list
      comparisons come in as their outcomes. */
  function Checks(a: ComparedFields, b: ComparedFields, sameRequired: bool, sameInformed: bool): seq<FieldCheck>
  {
    [FieldCheck(a.id == b.id, "the ID fields did not match"),
     FieldCheck(a.apiUserID == b.apiUserID, "the ApproverID fields did not match"),
     FieldCheck(a.desiredState == b.desiredState, "the DesiredState fields did not match"),
     FieldCheck(a.name == b.name, "the Name fields did not match"),
     FieldCheck(a.description == b.description, "the EmailAddress fields did not match"),
     FieldCheck(a.serial == b.serial, "the Serial fields did not match"),
     FieldCheck(a.certificate == b.certificate, "the Role fields did not match"),
     FieldCheck(a.savedNotes == b.savedNotes, "the Saved Notes field did not match"),
     FieldCheck(a.isAdmin == b.isAdmin, "the IsAdmin fields did not match"),
     FieldCheck(a.isEPPClient == b.isEPPClient, "the IsEPPClient fields did not match"),
     FieldCheck(a.issueCR == b.issueCR, "the Issue/CR fields did not macth"),
     FieldCheck(a.notes == b.notes, "the Notes fields did not macth"),
     FieldCheck(sameRequired, "the required approver sets did not match"),
     FieldCheck(sameInformed, "the informed approver sets did not match")]
  }

  /** The checks of `are.Compare(r)`. */
  function RevisionChecks(are: APIUserRevisionExport, r: APIUserRevisionRecord): seq<FieldCheck>
  {
    Checks(ExportFields(are), RevisionFields(r),
           SameIdLists(SetIDs(r.requiredApproverSets), ExportIDs(are.requiredApproverSets)),
           SameIdLists(SetIDs(r.informedApproverSets), ExportIDs(are.informedApproverSets)))
  }

  /** The checks of `are.CompareExport(other)`. */
  function ExportChecks(are: APIUserRevisionExport, other: APIUserRevisionExport): seq<FieldCheck>
  {
    Checks(ExportFields(are), ExportFields(other),
           SameIdLists(ExportIDs(other.requiredApproverSets), ExportIDs(are.requiredApproverSets)),
           SameIdLists(ExportIDs(other.informedApproverSets), ExportIDs(are.informedApproverSets)))
  }

  /** Compare: the export against a full revision. */
  method Compare(are: APIUserRevisionExport, r: APIUserRevisionRecord) returns (pass: bool, errs: seq<string>)
    ensures pass <==> AllSame(RevisionChecks(are, r))
    ensures errs == Failed(RevisionChecks(are, r))
  {
    var requiredCheck := CompareToApproverSetListToExportShort(r.requiredApproverSets, are.requiredApproverSets);
    var informedCheck := CompareToApproverSetListToExportShort(r.informedApproverSets, are.informedApproverSets);
    pass, errs := RunCompare(Checks(ExportFields(are), RevisionFields(r), requiredCheck, informedCheck));
  }

  /** CompareExport: the export against another export. */
  method CompareExport(are: APIUserRevisionExport, other: APIUserRevisionExport) returns (pass: bool, errs: seq<string>)
    ensures pass <==> AllSame(ExportChecks(are, other))
    ensures errs == Failed(ExportChecks(are, other))
  {
    var requiredCheck := CompareToApproverSetExportShortLists(other.requiredApproverSets, are.requiredApproverSets);
    var informedCheck := CompareToApproverSetExportShortLists(other.informedApproverSets, are.informedApproverSets);
    pass, errs := RunCompare(Checks(ExportFields(are), ExportFields(other), requiredCheck, informedCheck));
  }

  /** `e` is the export version of `r`: every field copied, the approver
      sets exported one by one, and -1 for a missing change request. */
  predicate IsExportOf(e: APIUserRevisionExport, r: APIUserRevisionRecord)
  {
    ExportFields(e) == RevisionFields(r)
    && ExportsOf(r.requiredApproverSets, e.requiredApproverSets)
    && ExportsOf(r.informedApproverSets, e.informedApproverSets)
    && e.changeRequestID == (if r.crid.valid then r.crid.int64 else -1)
    && e.createdAt == r.createdAt && e.createdBy == r.createdBy
  }

  /** GetExportVersion. */
  method GetExportVersion(r: APIUserRevisionRecord) returns (e: APIUserRevisionExport)
    ensures IsExportOf(e, r)
  {
    var changeRequestID := if r.crid.valid then r.crid.int64 else -1;
    var required := GetApproverSetExportArr(r.requiredApproverSets);
    var informed := GetApproverSetExportArr(r.informedApproverSets);
    e := APIUserRevisionExport(
      r.id, r.apiUserID, r.desiredState, r.name, r.description, r.serial, r.certificate,
      r.savedNotes, r.isAdmin, r.isEPPClient, changeRequestID, r.issueCR, r.notes,
      required, informed, r.createdAt, r.createdBy);
  }

  /** A revision compares equal to its own export: no check fails. */
  lemma ExportPassesCompare(e: APIUserRevisionExport, r: APIUserRevisionRecord)
    requires IsExportOf(e, r)
    ensures AllSame(RevisionChecks(e, r))
    ensures Failed(RevisionChecks(e, r)) == []
  {
    ExportKeepsIDs(r.requiredApproverSets, e.requiredApproverSets);
    ExportKeepsIDs(r.informedApproverSets, e.informedApproverSets);
    FailedMessages(RevisionChecks(e, r));
  }

  /** An export compares equal to itself, and the comparison of two
      exports passes in one direction exactly when it passes in the other. */
  lemma CompareExportIsEquivalence(a: APIUserRevisionExport, b: APIUserRevisionExport)
    ensures AllSame(ExportChecks(a, a))
    ensures AllSame(ExportChecks(a, b)) <==> AllSame(ExportChecks(b, a))
  {
    SameIdListsSymmetric(ExportIDs(a.requiredApproverSets), ExportIDs(b.requiredApproverSets));
    SameIdListsSymmetric(ExportIDs(a.informedApproverSets), ExportIDs(b.informedApproverSets));
    var ab := ExportChecks(a, b);
    var ba := ExportChecks(b, a);
    assert forall i :: 0 <= i < 14 ==> (ab[i].same <==> ba[i].same);
  }

  /** A description that differs from the export's is reported under the
      "EmailAddress" message. */
  lemma DescriptionMismatchLabel(e: APIUserRevisionExport, r: APIUserRevisionRecord)
    requires e.description != r.description
    ensures "the EmailAddress fields did not match" in Failed(RevisionChecks(e, r))
  {
    var cs := RevisionChecks(e, r);
    FailedMessages(cs);
    assert !cs[4].same && cs[4].msg == "the EmailAddress fields did not match";
  }

  // ---------------------------------------------------------------------
  // Menu, state and the JSON guard

  /** GetActions: the shared revision menu with "API User" as the parent. */
  method GetActions(r: APIUserRevisionRecord, isSelf: bool) returns (ret: map<string, string>)
    ensures RevisionMenu(ret, APIUserRevisionType, APIUserType, "API User", r.id, r.apiUserID, r.revisionState, isSelf)
    ensures |ret| == RevisionActionCount(r.revisionState, isSelf)
  {
    ret := RevisionActions(APIUserRevisionType, APIUserType, "API User", r.id, r.apiUserID, r.revisionState, isSelf);
  }

  predicate IsCancelled(r: APIUserRevisionRecord) { r.revisionState == StateCancelled }

  predicate IsEditable(r: APIUserRevisionRecord) { r.revisionState == StateNew }

  predicate IsDesiredState(r: APIUserRevisionRecord, state: string) { r.desiredState == state }

  /** Approval can be started only on an editable revision, and a
      cancelled one is never offered for cancellation. */
  lemma ActionsFollowEditability(r: APIUserRevisionRecord, isSelf: bool, ret: map<string, string>)
    requires RevisionMenu(ret, APIUserRevisionType, APIUserType, "API User", r.id, r.apiUserID, r.revisionState, isSelf)
    ensures "Start Approval Process" in ret <==> IsEditable(r)
    ensures IsCancelled(r) ==> "Cancel Revision" !in ret
  {
    RevisionMenuFollowsState(ret, APIUserRevisionType, APIUserType, "API User", r.id, r.apiUserID, r.revisionState, isSelf);
  }

  /** ToJSON of the export: refused for an ID that is not positive. */
  function ToJSON(e: APIUserRevisionExport, marshal: APIUserRevisionExport -> string): (r: Result<string>)
    ensures r.Err? <==> e.id <= 0
    ensures r.Err? ==> r.msg == "invalid revision ID"
    ensures r.Ok? ==> r.value == marshal(e)
  {
    ExportToJSON(e, e.id, "invalid revision ID", marshal)
  }
}
