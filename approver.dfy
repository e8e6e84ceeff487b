// Approvers: the values a new revision is pre-filled with, the display
// name, the parsing of approver IDs from a form field and the comparison
// of approver lists by ID.

module Approver {
  import opened Common
  import opened RegistrarObject
  import opened Core
  import opened ApproverRevision

  /** An approver with its current revision; `prepared` is set by Prepare. */
  datatype ApproverRecord = ApproverRecord(
    id: int, state: string, prepared: bool,
    currentRevisionID: NullInt64, currentRevision: ApproverRevisionRecord,
    createdAt: int, createdBy: string)

  /** ApproverExportShort. */
  datatype ApproverExportShort = ApproverExportShort(id: int, state: string, createdAt: int, createdBy: string)

  const ApproverFieldEmailAddres := "EmailAddress"
  const ApproverFieldRole := "Role"
  const ApproverFieldName := "Name"
  const ApproverFieldUsername := "Username"
  const ApproverFieldEmployeeID := "EmployeeID"
  const ApproverFieldDepartment := "Department"
  const ApproverFieldFingerprint := "Fingerprint"
  const ApproverFieldPublicKey := "PublicKey"

  const UnPreparedApproverError := "Error: Approver Not Prepared"

  /** The field names SuggestedRevisionValue knows. */
  const SuggestedFields: set<string> := {
    ApproverFieldName, ApproverFieldUsername, ApproverFieldEmployeeID, ApproverFieldDepartment,
    ApproverFieldFingerprint, ApproverFieldPublicKey, ApproverFieldEmailAddres, ApproverFieldRole,
    SavedObjectNote}

  /** SuggestedRevisionValue: the current revision's value of the named
      field; the employee ID in decimal. */
  function SuggestedRevisionValue(a: ApproverRecord, field: string): (r: string)
    ensures !a.currentRevisionID.valid ==> r == ""
    ensures field !in SuggestedFields ==> r == ""
  {
    var c := a.currentRevision;
    if !a.currentRevisionID.valid then ""
    else if field == ApproverFieldName then c.name
    else if field == ApproverFieldUsername then c.username
    else if field == ApproverFieldEmployeeID then IntToString(c.employeeID)
    else if field == ApproverFieldDepartment then c.department
    else if field == ApproverFieldFingerprint then c.fingerprint
    else if field == ApproverFieldPublicKey then c.publicKey
    else if field == ApproverFieldEmailAddres then c.emailAddress
    else if field == ApproverFieldRole then c.role
    else if field == SavedObjectNote then c.savedNotes
    else ""
  }

  /** The suggested employee ID reads back as the stored number. */
  lemma SuggestedEmployeeIDParses(a: ApproverRecord)
    requires a.currentRevisionID.valid
    requires InInt64(a.currentRevision.employeeID)
    ensures ParseInt(SuggestedRevisionValue(a, ApproverFieldEmployeeID)) == Some(a.currentRevision.employeeID)
  {
    ParseIntOfFormatted(a.currentRevision.employeeID);
  }

  /** SuggestedRevisionBool: the desired state flags and the admin flag of
      the current revision. */
  function SuggestedRevisionBool(a: ApproverRecord, field: string): (r: bool)
    ensures r ==> a.currentRevisionID.valid
    ensures r ==> field in {DesiredStateActive, DesiredStateInactive, "IsAdmin"}
    ensures field == DesiredStateActive ==> (r <==> a.currentRevisionID.valid && a.currentRevision.desiredState == StateActive)
    ensures field == DesiredStateInactive ==> (r <==> a.currentRevisionID.valid && a.currentRevision.desiredState == StateInactive)
  {
    if !a.currentRevisionID.valid then false
    else if field == DesiredStateActive then a.currentRevision.desiredState == StateActive
    else if field == DesiredStateInactive then a.currentRevision.desiredState == StateInactive
    else if field == "IsAdmin" then a.currentRevision.isAdmin
    else false
  }

  /** GetCurrentValue: the suggested value, or the not-prepared error. */
  function GetCurrentValue(a: ApproverRecord, field: string): (r: string)
    ensures !a.prepared ==> r == UnPreparedApproverError
    ensures a.prepared ==> r == SuggestedRevisionValue(a, field)
  {
    if !a.prepared then UnPreparedApproverError else SuggestedRevisionValue(a, field)
  }

  /** GetDisplayName: "<id> - <email> (<role>)". */
  function GetDisplayName(a: ApproverRecord): string
  {
    IntToString(a.id) + " - " + GetCurrentValue(a, ApproverFieldEmailAddres) + " (" + GetCurrentValue(a, ApproverFieldRole) + ")"
  }

  /** A prepared approver with a current revision shows its address and
      role; one without a current revision shows neither; an unprepared
      one shows the error in both places. */
  lemma DisplayNameShape(a: ApproverRecord)
    ensures a.prepared && a.currentRevisionID.valid ==>
      GetDisplayName(a) == IntToString(a.id) + " - " + a.currentRevision.emailAddress + " (" + a.currentRevision.role + ")"
    ensures a.prepared && !a.currentRevisionID.valid ==> GetDisplayName(a) == IntToString(a.id) + " - " + " (" + ")"
    ensures !a.prepared ==>
      GetDisplayName(a) == IntToString(a.id) + " - " + UnPreparedApproverError + " (" + UnPreparedApproverError + ")"
  {
  }

  predicate IsEditable(a: ApproverRecord) { a.state == StateNew }

  predicate IsCancelled(a: ApproverRecord) { a.state == StateCancelled }

  // ---------------------------------------------------------------------
  // ParseApprovers

  /** A token names an approver when it parses and the lookup finds it. */
  predicate Loads(raw: string, lookup: int -> Result<ApproverRecord>)
  {
    ParseInt(raw).Some? && lookup(ParseInt(raw).value).Ok?
  }

  /** The approvers the tokens name, in token order and with repeats. */
  function Found(tokens: seq<string>, lookup: int -> Result<ApproverRecord>): seq<ApproverRecord>
  {
    if tokens == [] then []
    else
      var last := tokens[|tokens| - 1];
      Found(tokens[..|tokens| - 1], lookup)
        + (if Loads(last, lookup) then [lookup(ParseInt(last).value).value] else [])
  }

  /** The tokens that do not parse or do not load, in order. */
  function Bad(tokens: seq<string>, lookup: int -> Result<ApproverRecord>): seq<string>
  {
    if tokens == [] then []
    else
      var last := tokens[|tokens| - 1];
      Bad(tokens[..|tokens| - 1], lookup) + (if Loads(last, lookup) then [] else [last])
  }

  /** `unparsableIDs`: each bad token after a space. */
  function Listing(bad: seq<string>): string
  {
    if bad == [] then "" else Listing(bad[..|bad| - 1]) + " " + bad[|bad| - 1]
  }

  function ParseApproversError(htmlID: string, tokens: seq<string>, lookup: int -> Result<ApproverRecord>): Option<string>
  {
    if Bad(tokens, lookup) != [] then
      Some("an err occurred parsing the following approvers in the " + htmlID + " form field: " + Listing(Bad(tokens, lookup)))
    else None
  }

  lemma ParseSnoc(tokens: seq<string>, raw: string, lookup: int -> Result<ApproverRecord>)
    ensures Found(tokens + [raw], lookup) == Found(tokens, lookup) + (if Loads(raw, lookup) then [lookup(ParseInt(raw).value).value] else [])
    ensures Bad(tokens + [raw], lookup) == Bad(tokens, lookup) + (if Loads(raw, lookup) then [] else [raw])
  {
    assert (tokens + [raw])[..|tokens|] == tokens;
  }




  /** The three variables of ParseApprovers' loops. */
  datatype ParseProgress = ParseProgress(approvers: seq<ApproverRecord>, unparsable: string, failed: bool)

  /** One token: a token that parses and loads adds its approver, any
      other is listed and marks the parse failed. */
  function ParseToken(st: ParseProgress, raw: string, lookup: int -> Result<ApproverRecord>): ParseProgress
  {
    if Loads(raw, lookup) then st.(approvers := st.approvers + [lookup(ParseInt(raw).value).value])
    else st.(unparsable := st.unparsable + " " + raw, failed := true)
  }

  function ParseFold(st: ParseProgress, tokens: seq<string>, lookup: int -> Result<ApproverRecord>): ParseProgress
  {
    if tokens == [] then st
    else ParseToken(ParseFold(st, tokens[..|tokens| - 1], lookup), tokens[|tokens| - 1], lookup)
  }

  lemma {:induction false} ParseFoldAppend(st: ParseProgress, a: seq<string>, b: seq<string>, lookup: int -> Result<ApproverRecord>)
    ensures ParseFold(ParseFold(st, a, lookup), b, lookup) == ParseFold(st, a + b, lookup)
  {
    if b != [] {
      ParseFoldAppend(st, a, b[..|b| - 1], lookup);
      assert (a + b)[..|a + b| - 1] == a + b[..|b| - 1];
    } else {
      assert a + b == a;
    }
  }

  /** From the empty start, the loops end with the approvers found, the
      listing of the bad tokens and whether there was any. */
  lemma {:induction false} ParseFoldMeaning(tokens: seq<string>, lookup: int -> Result<ApproverRecord>)
    ensures ParseFold(ParseProgress([], "", false), tokens, lookup)
      == ParseProgress(Found(tokens, lookup), Listing(Bad(tokens, lookup)), Bad(tokens, lookup) != [])
  {
    if tokens != [] {
      var init := tokens[..|tokens| - 1];
      var last := tokens[|tokens| - 1];
      ParseFoldMeaning(init, lookup);
      if Loads(last, lookup) {
        assert Bad(init, lookup) + [] == Bad(init, lookup);
      } else {
        assert Found(init, lookup) + [] == Found(init, lookup);
        var bad := Bad(init, lookup) + [last];
        assert bad[..|bad| - 1] == Bad(init, lookup);
      }
    }
  }

  /** One token of the inner loop. */
  method ParseOne(approvers: seq<ApproverRecord>, unparsable: string, failed: bool, raw: string,
                  lookup: int -> Result<ApproverRecord>)
    returns (approvers': seq<ApproverRecord>, unparsable': string, failed': bool)
    ensures ParseProgress(approvers', unparsable', failed') == ParseToken(ParseProgress(approvers, unparsable, failed), raw, lookup)
  {
    approvers', unparsable', failed' := approvers, unparsable, failed;
    var appid := ParseInt(raw);
    if appid.Some? {
      var tmpApp := lookup(appid.value);
      if tmpApp.Err? {
        failed' := true;
        unparsable' := unparsable' + " " + raw;
      } else {
        approvers' := approvers' + [tmpApp.value];
      }
    } else {
      failed' := true;
      unparsable' := unparsable' + " " + raw;
    }
  }

  /** The inner loop over the tokens of one form value. */
  method ParseWords(approvers: seq<ApproverRecord>, unparsable: string, failed: bool, words: seq<string>,
                    lookup: int -> Result<ApproverRecord>)
    returns (approvers': seq<ApproverRecord>, unparsable': string, failed': bool)
    ensures ParseProgress(approvers', unparsable', failed') == ParseFold(ParseProgress(approvers, unparsable, failed), words, lookup)
  {
    approvers', unparsable', failed' := approvers, unparsable, failed;
    var j := 0;
    while j < |words|
      invariant 0 <= j <= |words|
      invariant ParseProgress(approvers', unparsable', failed') == ParseFold(ParseProgress(approvers, unparsable, failed), words[..j], lookup)
    {
      assert words[..j + 1][..j] == words[..j];
      approvers', unparsable', failed' := ParseOne(approvers', unparsable', failed', words[j], lookup);
      j := j + 1;
    }
    assert words[..j] == words;
  }

  /** ParseApprovers: every token of every value of the field is looked
      up; the approvers found come back in order even when some token
      fails, and the failing tokens are listed in one error. */
  method ParseApprovers(values: seq<string>, htmlID: string, lookup: int -> Result<ApproverRecord>)
    returns (approvers: seq<ApproverRecord>, err: Option<string>)
    ensures approvers == Found(FormTokens(values), lookup)
    ensures err == ParseApproversError(htmlID, FormTokens(values), lookup)
  {
    ghost var start := ParseProgress([], "", false);
    var unparsableIDs := "";
    var failedParsing := false;
    approvers := [];
    var c := 0;
    while c < |values|
      invariant 0 <= c <= |values|
      invariant ParseProgress(approvers, unparsableIDs, failedParsing) == ParseFold(start, FormTokens(values[..c]), lookup)
    {
      var words := Split(values[c], ' ');
      approvers, unparsableIDs, failedParsing := ParseWords(approvers, unparsableIDs, failedParsing, words, lookup);
      ParseFoldAppend(start, FormTokens(values[..c]), words, lookup);
      FormTokensSnoc(values, c);
      c := c + 1;
    }
    assert values[..c] == values;
    ParseFoldMeaning(FormTokens(values), lookup);
    err := None;
    if failedParsing {
      err := Some("an err occurred parsing the following approvers in the " + htmlID + " form field: " + unparsableIDs);
    }
  }

  /** Every token is accounted for: it is either found or listed as bad. */
  lemma {:induction false} ParseAccounting(tokens: seq<string>, lookup: int -> Result<ApproverRecord>)
    ensures |Found(tokens, lookup)| + |Bad(tokens, lookup)| == |tokens|
    ensures Bad(tokens, lookup) == [] <==> forall i :: 0 <= i < |tokens| ==> Loads(tokens[i], lookup)
  {
    if tokens != [] {
      var init := tokens[..|tokens| - 1];
      ParseAccounting(init, lookup);
      assert forall i :: 0 <= i < |init| ==> init[i] == tokens[i];
    }
  }

  /** Token `i` names approver `a`. */
  predicate NamesAt(tokens: seq<string>, i: int, a: ApproverRecord, lookup: int -> Result<ApproverRecord>)
  {
    0 <= i < |tokens| && Loads(tokens[i], lookup) && lookup(ParseInt(tokens[i]).value).value == a
  }

  /** An approver is returned exactly when some token names it. */
  lemma {:induction false} FoundMembers(tokens: seq<string>, lookup: int -> Result<ApproverRecord>, a: ApproverRecord)
    ensures a in Found(tokens, lookup) <==> exists i :: NamesAt(tokens, i, a, lookup)
  {
    if tokens != [] {
      var init := tokens[..|tokens| - 1];
      var last := tokens[|tokens| - 1];
      FoundMembers(init, lookup, a);
      assert tokens == init + [last];
      ParseSnoc(init, last, lookup);
      if a in Found(tokens, lookup) {
        if a in Found(init, lookup) {
          var i :| NamesAt(init, i, a, lookup);
          assert NamesAt(tokens, i, a, lookup);
        } else {
          assert NamesAt(tokens, |tokens| - 1, a, lookup);
        }
      }
      if exists i :: NamesAt(tokens, i, a, lookup) {
        var i :| NamesAt(tokens, i, a, lookup);
        if i < |init| {
          assert NamesAt(init, i, a, lookup);
        }
      }
    }
  }

  /** Unlike ParseApproverSets, a repeated ID gives the approver twice,
      and a bad token does not stop the good ones from being returned. */
  lemma RepeatsAndFailuresKept(a: ApproverRecord, lookup: int -> Result<ApproverRecord>)
    requires lookup(1) == Ok(a)
    ensures Found(["1", "1", "x"], lookup) == [a, a]
    ensures Bad(["1", "1", "x"], lookup) == ["x"]
  {
    var ts := ["1", "1", "x"];
    assert ParseInt("1") == Some(1) by {
      ParseIntOfFormatted(1);
      assert IntToString(1) == "1";
    }
    assert ParseInt("x").None? by {
      assert !IsDigit('x');
    }
    assert ts[..2][..1] == ["1"];
    assert ts[..2] == ["1", "1"];
    assert ["1"][..0] == [];
    assert Found(["1"], lookup) == [a];
    assert Found(["1", "1"], lookup) == [a, a];
    assert Bad(["1", "1"], lookup) == [];
  }

  // ---------------------------------------------------------------------
  // The approver list comparisons

  function ApproverIDs(apps: seq<ApproverRecord>): (r: seq<int>)
    ensures |r| == |apps| && forall i :: 0 <= i < |apps| ==> r[i] == apps[i].id
  {
    if apps == [] then [] else ApproverIDs(apps[..|apps| - 1]) + [apps[|apps| - 1].id]
  }

  function ExportShortIDs(exports: seq<ApproverExportShort>): (r: seq<int>)
    ensures |r| == |exports| && forall i :: 0 <= i < |exports| ==> r[i] == exports[i].id
  {
    if exports == [] then [] else ExportShortIDs(exports[..|exports| - 1]) + [exports[|exports| - 1].id]
  }

  /** CompareToApproverListExportShortList: same count and every ID found
      in the other list, both ways. */
  method CompareToApproverListExportShortList(apps: seq<ApproverRecord>, appse: seq<ApproverExportShort>)
    returns (r: bool)
    ensures r <==> SameIdLists(ApproverIDs(apps), ExportShortIDs(appse))
  {
    r := CompareIdLists(ApproverIDs(apps), ExportShortIDs(appse));
  }

  /** CompareToApproverExportShortLists: the same test on two exports. */
  method CompareToApproverExportShortLists(apps: seq<ApproverExportShort>, appse: seq<ApproverExportShort>)
    returns (r: bool)
    ensures r <==> SameIdLists(ExportShortIDs(apps), ExportShortIDs(appse))
  {
    r := CompareIdLists(ExportShortIDs(apps), ExportShortIDs(appse));
  }

  /** A list of approvers compares equal to the short exports of any
      reordering of it. */
  lemma ListMatchesReorderedExport(apps: seq<ApproverRecord>, appse: seq<ApproverExportShort>, perm: seq<int>)
    requires |perm| == |apps| == |appse|
    requires forall i :: 0 <= i < |perm| ==> 0 <= perm[i] < |apps| && appse[i].id == apps[perm[i]].id
    requires forall k :: 0 <= k < |apps| ==> k in perm
    ensures SameIdLists(ApproverIDs(apps), ExportShortIDs(appse))
  {
    var a := ApproverIDs(apps);
    var b := ExportShortIDs(appse);
    forall i | 0 <= i < |a|
      ensures a[i] in b
    {
      var j := IndexOf(perm, i);
      assert b[j] == a[i];
    }
    forall j | 0 <= j < |b|
      ensures b[j] in a
    {
      assert a[perm[j]] == b[j];
    }
  }
}
