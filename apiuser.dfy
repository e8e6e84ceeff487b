// API users: the certificate name that identifies them like a user, the
// values a new revision is pre-filled with, the display name, the JSON
// guard of the full export and the editability test.

module APIUser {
  import opened Common
  import opened RegistrarObject
  import opened Core
  import opened APIUserRevision

  /** An API user with its current revision; `prepared` is set by Prepare. */
  datatype APIUserRecord = APIUserRecord(
    id: int, state: string, prepared: bool,
    currentRevisionID: NullInt64, currentRevision: APIUserRevisionRecord)

  /** APIUserExportFull. */
  datatype APIUserExportFull = APIUserExportFull(
    id: int, state: string,
    currentRevision: APIUserRevisionExport, pendingRevision: APIUserRevisionExport,
    createdAt: int, createdBy: string)

  const APIUserName := "Name"
  const APIUserDescription := "Description"
  const APIUserCertificate := "Certificate"
  const APIUserSerial := "Serial"

  const UnPreparedAPIUserError := "Error: APIUser Not Prepared"
  const ErrIDNotSet := "ID not set"
  const NoCurrentRevision := "nocurrentrevision"

  // ---------------------------------------------------------------------
  // GetCertName

  /** The version part of the certificate name. */
  function CertVersion(a: APIUserRecord): string
  {
    if a.currentRevisionID.valid then IntToString(a.currentRevisionID.int64) else NoCurrentRevision
  }

  /** GetCertName: "apiuser<id>-<current revision ID>", or
      "apiuser<id>-nocurrentrevision" without a current revision. */
  function GetCertName(a: APIUserRecord): (r: string)
    ensures HasPrefix(r, "apiuser" + IntToString(a.id) + "-")
    ensures a.currentRevisionID.valid ==> HasSuffix(r, "-" + IntToString(a.currentRevisionID.int64))
    ensures !a.currentRevisionID.valid ==> HasSuffix(r, "-" + NoCurrentRevision)
  {
    var head := "apiuser" + IntToString(a.id) + "-";
    var r := head + CertVersion(a);
    assert r[..|head|] == head;
    assert r[|r| - |CertVersion(a)| - 1..] == "-" + CertVersion(a);
    r
  }

  /** The certificate name identifies the user and its current revision:
      two users with IDs that are not negative share a name only when they
      have the same ID and the same current revision (or both have none). */
  lemma CertNameIdentifies(a: APIUserRecord, b: APIUserRecord)
    requires a.id >= 0 && b.id >= 0
    requires GetCertName(a) == GetCertName(b)
    ensures a.id == b.id
    ensures a.currentRevisionID.valid == b.currentRevisionID.valid
    ensures a.currentRevisionID.valid ==> a.currentRevisionID.int64 == b.currentRevisionID.int64
  {
    NatToStringNoColon(a.id);
    NatToStringNoColon(b.id);
    DigitsBeforeDash(NatToString(a.id), NatToString(b.id), CertVersion(a), CertVersion(b));
    NatToStringInjective(a.id, b.id);
    var va, vb := CertVersion(a), CertVersion(b);
    assert va == vb;
    if a.currentRevisionID.valid != b.currentRevisionID.valid {
      if a.currentRevisionID.valid {
        VersionIsNotAbsent(a.currentRevisionID.int64);
      } else {
        VersionIsNotAbsent(b.currentRevisionID.int64);
      }
    } else if a.currentRevisionID.valid {
      IntToStringInjective(a.currentRevisionID.int64, b.currentRevisionID.int64);
    }
  }

  /** "apiuser" + digits + "-" + rest splits uniquely at its first dash. */
  lemma DigitsBeforeDash(da: string, db: string, ra: string, rb: string)
    requires AllDigits(da) && AllDigits(db)
    requires "apiuser" + da + "-" + ra == "apiuser" + db + "-" + rb
    ensures da == db && ra == rb
  {
    var sa := "apiuser" + da + "-" + ra;
    var sb := "apiuser" + db + "-" + rb;
    DashAfterDigits(da, ra);
    DashAfterDigits(db, rb);
    assert |da| == |db|;
    assert da == sa[7..7 + |da|] && db == sb[7..7 + |db|];
    assert ra == sa[8 + |da|..] && rb == sb[8 + |db|..];
  }

  lemma DashAfterDigits(d: string, r: string)
    requires AllDigits(d)
    ensures var s := "apiuser" + d + "-" + r;
      s[7 + |d|] == '-' && forall k :: 7 <= k < 7 + |d| ==> s[k] != '-'
  {
    var s := "apiuser" + d + "-" + r;
    assert forall k :: 7 <= k < 7 + |d| ==> s[k] == d[k - 7];
  }

  /** A revision number is never written as "nocurrentrevision". */
  lemma VersionIsNotAbsent(i: int)
    ensures IntToString(i) != NoCurrentRevision
  {
    IntToStringChars(i);
    IntToStringSign(i);
    assert NoCurrentRevision[0] == 'n';
  }

  // ---------------------------------------------------------------------
  // Suggested values, current values and the display name

  /** The field names SuggestedRevisionValue knows. */
  const SuggestedFields: set<string> := {APIUserName, APIUserDescription, APIUserCertificate, APIUserSerial, SavedObjectNote}

  /** SuggestedRevisionValue: the current revision's value of the named
      field, and "" without a current revision or for another field. */
  function SuggestedRevisionValue(a: APIUserRecord, field: string): (r: string)
    ensures !a.currentRevisionID.valid ==> r == ""
    ensures field !in SuggestedFields ==> r == ""
    ensures a.currentRevisionID.valid && field == APIUserName ==> r == a.currentRevision.name
    ensures a.currentRevisionID.valid && field == APIUserCertificate ==> r == a.currentRevision.certificate
  {
    var c := a.currentRevision;
    if !a.currentRevisionID.valid then ""
    else if field == APIUserName then c.name
    else if field == APIUserDescription then c.description
    else if field == APIUserCertificate then c.certificate
    else if field == APIUserSerial then c.serial
    else if field == SavedObjectNote then c.savedNotes
    else ""
  }

  /** SuggestedRevisionBool: the desired state flags and the admin and EPP
      client flags of the current revision; false without one. */
  function SuggestedRevisionBool(a: APIUserRecord, field: string): (r: bool)
    ensures r ==> a.currentRevisionID.valid
    ensures r ==> field in {DesiredStateActive, DesiredStateInactive, "IsAdmin", "IsEPPClient"}
    ensures field == DesiredStateActive ==> (r <==> a.currentRevisionID.valid && a.currentRevision.desiredState == StateActive)
    ensures field == DesiredStateInactive ==> (r <==> a.currentRevisionID.valid && a.currentRevision.desiredState == StateInactive)
    ensures field == "IsAdmin" ==> (r <==> a.currentRevisionID.valid && a.currentRevision.isAdmin)
    ensures field == "IsEPPClient" ==> (r <==> a.currentRevisionID.valid && a.currentRevision.isEPPClient)
  {
    if !a.currentRevisionID.valid then false
    else if field == DesiredStateActive then a.currentRevision.desiredState == StateActive
    else if field == DesiredStateInactive then a.currentRevision.desiredState == StateInactive
    else if field == "IsAdmin" then a.currentRevision.isAdmin
    else if field == "IsEPPClient" then a.currentRevision.isEPPClient
    else false
  }

  /** At most one of the two desired state flags is suggested. */
  lemma DesiredStateFlagsExclusive(a: APIUserRecord)
    ensures !(SuggestedRevisionBool(a, DesiredStateActive) && SuggestedRevisionBool(a, DesiredStateInactive))
  {
  }

  /** GetCurrentValue: the suggested value, or the not-prepared error. */
  function GetCurrentValue(a: APIUserRecord, field: string): (r: string)
    ensures !a.prepared ==> r == UnPreparedAPIUserError
    ensures a.prepared ==> r == SuggestedRevisionValue(a, field)
  {
    if !a.prepared then UnPreparedAPIUserError else SuggestedRevisionValue(a, field)
  }

  /** GetDisplayName: "<id> - <current name>". */
  function GetDisplayName(a: APIUserRecord): string
  {
    IntToString(a.id) + " - " + GetCurrentValue(a, APIUserName)
  }

  /** A prepared user shows its current name (nothing without a current
      revision); an unprepared one shows the error. */
  lemma DisplayNameShape(a: APIUserRecord)
    ensures !a.prepared ==> GetDisplayName(a) == IntToString(a.id) + " - " + UnPreparedAPIUserError
    ensures a.prepared && a.currentRevisionID.valid ==> GetDisplayName(a) == IntToString(a.id) + " - " + a.currentRevision.name
    ensures a.prepared && !a.currentRevisionID.valid ==> GetDisplayName(a) == IntToString(a.id) + " - "
  {
  }

  // ---------------------------------------------------------------------
  // ToJSON and the state tests

  /** APIUserExportFull.ToJSON: refused for an ID that is not positive. */
  function ToJSON(e: APIUserExportFull, marshal: APIUserExportFull -> string): (r: Result<string>)
    ensures r.Err? <==> e.id <= 0
    ensures r.Err? ==> r.msg == ErrIDNotSet
    ensures r.Ok? ==> r.value == marshal(e)
  {
    ExportToJSON(e, e.id, ErrIDNotSet, marshal)
  }

  predicate IsEditable(a: APIUserRecord) { a.state == StateNew }

  predicate IsCancelled(a: APIUserRecord) { a.state == StateCancelled }

}
