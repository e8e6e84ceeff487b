// Approver revisions: the export, the field-by-field comparisons against
// a revision and against another export, the action menu and the JSON
// guard. GetState and HasHappened are RegistrarObject.RevisionFormState and
// RegistrarObject.HasHappened.

module ApproverRevision {
  import opened Common
  import opened RegistrarObject
  import opened Core
  import opened ApproverSet

  /** An approver revision, with its times as numbers. */
  datatype ApproverRevisionRecord = ApproverRevisionRecord(
    id: int, approverID: int, revisionState: string, desiredState: string,
    name: string, emailAddress: string, role: string, username: string,
    employeeID: int, department: string, isAdmin: bool, savedNotes: string,
    requiredApproverSets: seq<ApproverSetRecord>, informedApproverSets: seq<ApproverSetRecord>,
    fingerprint: string, publicKey: string, crid: NullInt64,
    issueCR: string, notes: string, createdAt: int, createdBy: string,
    times: RevisionTimes)

  /** ApproverRevisionExport. */
  datatype ApproverRevisionExport = ApproverRevisionExport(
    id: int, approverID: int, desiredState: string,
    name: string, emailAddress: string, role: string, username: string,
    employeeID: int, department: string, isAdmin: bool, savedNotes: string,
    requiredApproverSets: seq<ApproverSetExportShort>, informedApproverSets: seq<ApproverSetExportShort>,
    fingerprint: string, publicKey: string, changeRequestID: int,
    issueCR: string, notes: string, createdAt: int, createdBy: string)

  /** The fields both comparisons check one by one, in their order. */
  datatype ComparedFields = ComparedFields(
    id: int, approverID: int, desiredState: string,
    name: string, emailAddress: string, role: string, username: string,
    employeeID: int, department: string, isAdmin: bool, savedNotes: string,
    fingerprint: string, publicKey: string, issueCR: string, notes: string)

  function RevisionFields(r: ApproverRevisionRecord): ComparedFields
  {
    ComparedFields(r.id, r.approverID, r.desiredState, r.name, r.emailAddress, r.role, r.username,
                   r.employeeID, r.department, r.isAdmin, r.savedNotes, r.fingerprint, r.publicKey,
                   r.issueCR, r.notes)
  }

  function ExportFields(e: ApproverRevisionExport): ComparedFields
  {
    ComparedFields(e.id, e.approverID, e.desiredState, e.name, e.emailAddress, e.role, e.username,
                   e.employeeID, e.department, e.isAdmin, e.savedNotes, e.fingerprint, e.publicKey,
                   e.issueCR, e.notes)
  }

  /** The seventeen checks of Compare and CompareExport, with their
      messages as written (including "macth"); the two approver set list
      comparisons come in as their outcomes. */
  function Checks(a: ComparedFields, b: ComparedFields, sameRequired: bool, sameInformed: bool): seq<FieldCheck>
  {
    [FieldCheck(a.id == b.id, "the ID fields did not match"),
     FieldCheck(a.approverID == b.approverID, "the ApproverID fields did not match"),
     FieldCheck(a.desiredState == b.desiredState, "the DesiredState fields did not match"),
     FieldCheck(a.name == b.name, "the Name fields did not match"),
     FieldCheck(a.emailAddress == b.emailAddress, "the EmailAddress fields did not match"),
     FieldCheck(a.role == b.role, "the Role fields did not match"),
     FieldCheck(a.username == b.username, "the Username fields did not match"),
     FieldCheck(a.employeeID == b.employeeID, "the EmployeeID fields did not match"),
     FieldCheck(a.department == b.department, "the Department fields did not match"),
     FieldCheck(a.isAdmin == b.isAdmin, "the Is Admin fields did not match"),
     FieldCheck(a.savedNotes == b.savedNotes, "the Saved Notes field did not match"),
     FieldCheck(a.fingerprint == b.fingerprint, "the Fingerprint fields did not match"),
     FieldCheck(a.publicKey == b.publicKey, "the PublicKey fields did not match"),
     FieldCheck(a.issueCR == b.issueCR, "the Issue/CR fields did not macth"),
     FieldCheck(a.notes == b.notes, "the Notes fields did not macth"),
     FieldCheck(sameRequired, "the required approver sets did not match"),
     FieldCheck(sameInformed, "the informed approver sets did not match")]
  }

  /** The checks of `are.Compare(r)`. */
  function RevisionChecks(are: ApproverRevisionExport, r: ApproverRevisionRecord): seq<FieldCheck>
  {
    Checks(ExportFields(are), RevisionFields(r),
           SameIdLists(SetIDs(r.requiredApproverSets), ExportIDs(are.requiredApproverSets)),
           SameIdLists(SetIDs(r.informedApproverSets), ExportIDs(are.informedApproverSets)))
  }

  /** The checks of `are.CompareExport(other)`. */
  function ExportChecks(are: ApproverRevisionExport, other: ApproverRevisionExport): seq<FieldCheck>
  {
    Checks(ExportFields(are), ExportFields(other),
           SameIdLists(ExportIDs(other.requiredApproverSets), ExportIDs(are.requiredApproverSets)),
           SameIdLists(ExportIDs(other.informedApproverSets), ExportIDs(are.informedApproverSets)))
  }

  /** Compare: the export against a full revision. */
  method Compare(are: ApproverRevisionExport, r: ApproverRevisionRecord) returns (pass: bool, errs: seq<string>)
    ensures pass <==> AllSame(RevisionChecks(are, r))
    ensures errs == Failed(RevisionChecks(are, r))
  {
    var requiredCheck := CompareToApproverSetListToExportShort(r.requiredApproverSets, are.requiredApproverSets);
    var informedCheck := CompareToApproverSetListToExportShort(r.informedApproverSets, are.informedApproverSets);
    pass, errs := RunCompare(Checks(ExportFields(are), RevisionFields(r), requiredCheck, informedCheck));
  }

  /** CompareExport: the export against another export. */
  method CompareExport(are: ApproverRevisionExport, other: ApproverRevisionExport) returns (pass: bool, errs: seq<string>)
    ensures pass <==> AllSame(ExportChecks(are, other))
    ensures errs == Failed(ExportChecks(are, other))
  {
    var requiredCheck := CompareToApproverSetExportShortLists(other.requiredApproverSets, are.requiredApproverSets);
    var informedCheck := CompareToApproverSetExportShortLists(other.informedApproverSets, are.informedApproverSets);
    pass, errs := RunCompare(Checks(ExportFields(are), ExportFields(other), requiredCheck, informedCheck));
  }

  /** `e` is the export version of `r`: every field copied, the approver
      sets exported one by one, and -1 for a missing change request. */
  predicate IsExportOf(e: ApproverRevisionExport, r: ApproverRevisionRecord)
  {
    ExportFields(e) == RevisionFields(r)
    && ExportsOf(r.requiredApproverSets, e.requiredApproverSets)
    && ExportsOf(r.informedApproverSets, e.informedApproverSets)
    && e.changeRequestID == (if r.crid.valid then r.crid.int64 else -1)
    && e.createdAt == r.createdAt && e.createdBy == r.createdBy
  }

  /** GetExportVersion. */
  method GetExportVersion(r: ApproverRevisionRecord) returns (e: ApproverRevisionExport)
    ensures IsExportOf(e, r)
  {
    var required := GetApproverSetExportArr(r.requiredApproverSets);
    var informed := GetApproverSetExportArr(r.informedApproverSets);
    var changeRequestID := if r.crid.valid then r.crid.int64 else -1;
    e := ApproverRevisionExport(
      r.id, r.approverID, r.desiredState, r.name, r.emailAddress, r.role, r.username,
      r.employeeID, r.department, r.isAdmin, r.savedNotes, required, informed,
      r.fingerprint, r.publicKey, changeRequestID, r.issueCR, r.notes, r.createdAt, r.createdBy);
  }

  /** A revision compares equal to its own export: no check fails. */
  lemma ExportPassesCompare(e: ApproverRevisionExport, r: ApproverRevisionRecord)
    requires IsExportOf(e, r)
    ensures AllSame(RevisionChecks(e, r))
    ensures Failed(RevisionChecks(e, r)) == []
  {
    ExportKeepsIDs(r.requiredApproverSets, e.requiredApproverSets);
    ExportKeepsIDs(r.informedApproverSets, e.informedApproverSets);
    FailedMessages(RevisionChecks(e, r));
  }

  /** An export compares equal to itself, and the comparison of two
      exports passes in one direction exactly when it passes in the other. */
  lemma CompareExportIsEquivalence(a: ApproverRevisionExport, b: ApproverRevisionExport)
    ensures AllSame(ExportChecks(a, a))
    ensures AllSame(ExportChecks(a, b)) <==> AllSame(ExportChecks(b, a))
  {
    SameIdListsSymmetric(ExportIDs(a.requiredApproverSets), ExportIDs(b.requiredApproverSets));
    SameIdListsSymmetric(ExportIDs(a.informedApproverSets), ExportIDs(b.informedApproverSets));
    var ab := ExportChecks(a, b);
    var ba := ExportChecks(b, a);
    assert forall i :: 0 <= i < 17 ==> (ab[i].same <==> ba[i].same);
  }

  /** A revision whose name differs from the export's fails with the Name
      message, whatever else matches. */
  lemma NameMismatchReported(e: ApproverRevisionExport, r: ApproverRevisionRecord)
    requires e.name != r.name
    ensures "the Name fields did not match" in Failed(RevisionChecks(e, r))
  {
    var cs := RevisionChecks(e, r);
    FailedMessages(cs);
    assert !cs[3].same && cs[3].msg == "the Name fields did not match";
  }

  // ---------------------------------------------------------------------
  // Menu, state and the JSON guard

  /** GetActions: the shared revision menu with "Approver" as the parent. */
  method GetActions(r: ApproverRevisionRecord, isSelf: bool) returns (ret: map<string, string>)
    ensures RevisionMenu(ret, ApproverRevisionType, ApproverType, "Approver", r.id, r.approverID, r.revisionState, isSelf)
    ensures |ret| == RevisionActionCount(r.revisionState, isSelf)
  {
    ret := RevisionActions(ApproverRevisionType, ApproverType, "Approver", r.id, r.approverID, r.revisionState, isSelf);
  }

  predicate IsCancelled(r: ApproverRevisionRecord) { r.revisionState == StateCancelled }

  predicate IsEditable(r: ApproverRevisionRecord) { r.revisionState == StateNew }

  predicate IsDesiredState(r: ApproverRevisionRecord, state: string) { r.desiredState == state }

  /** Approval can be started only on an editable revision, and a
      cancelled one is never offered for cancellation. */
  lemma ActionsFollowEditability(r: ApproverRevisionRecord, isSelf: bool, ret: map<string, string>)
    requires RevisionMenu(ret, ApproverRevisionType, ApproverType, "Approver", r.id, r.approverID, r.revisionState, isSelf)
    ensures "Start Approval Process" in ret <==> IsEditable(r)
    ensures IsCancelled(r) ==> "Cancel Revision" !in ret
  {
    RevisionMenuFollowsState(ret, ApproverRevisionType, ApproverType, "Approver", r.id, r.approverID, r.revisionState, isSelf);
  }

  /** ToJSON of the export: refused for an ID that is not positive. */
  function ToJSON(e: ApproverRevisionExport, marshal: ApproverRevisionExport -> string): (r: Result<string>)
    ensures r.Err? <==> e.id <= 0
    ensures r.Err? ==> r.msg == "invalid revision ID"
    ensures r.Ok? ==> r.value == marshal(e)
  {
    ExportToJSON(e, e.id, "invalid revision ID", marshal)
  }
}
