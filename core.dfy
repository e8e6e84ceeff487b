// The shared registrar object base: ID assignment, loading and preparing,
// loop prevention, nullable-integer comparison, request headers and the
// form-value normalisers.

module Core {
  import opened Common
  import opened RegistrarObject

  const ErrIDAlreadySet := "ID has already been set on this object"
  const ErrIDNotPositive := "IDs must be greater than 0"

  /** The message Load gives for an object whose ID is not positive; the
      Go type name of the record is passed in. */
  function NonPositiveIDError(typeName: string, id: int): string
  {
    "the ID of " + typeName + " must be greater than 0 but is " + IntToString(id)
  }

  /** What Load reports: nothing when the object is already loaded, the ID
      error when the ID is not positive, otherwise the database's answer. */
  function LoadResult(loaded: bool, id: int, typeName: string, dbResult: Option<string>): (r: Option<string>)
    ensures loaded ==> r == None
    ensures !loaded && id <= 0 ==> r == Some(NonPositiveIDError(typeName, id))
    ensures !loaded && id > 0 ==> r == dbResult
  {
    if loaded then None
    else if id <= 0 then Some(NonPositiveIDError(typeName, id))
    else dbResult
  }

  /** A step of a callback run under HandleInProgress: some work, or a
      nested HandleInProgress call on the same object with its own steps. */
  datatype Step = Work(name: string) | Reenter(steps: seq<Step>)

  /** The work of a callback run while the object is in progress: nested
      calls do nothing, so only the callback's own work items remain. */
  function OwnWork(steps: seq<Step>): (r: seq<string>)
    ensures |r| <= |steps|
  {
    if steps == [] then []
    else OwnWork(steps[..|steps| - 1]) + (if steps[|steps| - 1].Work? then [steps[|steps| - 1].name] else [])
  }

  /** The fields of the embedded Model that the registrar code updates.
      loaded stands for a computed field hash, and ran records the work
      done by the callbacks HandleInProgress runs. */
  class Model {
    var id: int
    var loaded: bool
    var prepared: bool
    var inProgress: bool
    var ran: seq<string>

    constructor (id: int)
      ensures this.id == id && !loaded && !prepared && !inProgress && ran == []
    {
      this.id := id;
      loaded := false;
      prepared := false;
      inProgress := false;
      ran := [];
    }

    /** SetID: only an unset ID can be set, and only to a positive value;
        on error the ID is kept. */
    method SetID(objectID: int) returns (err: Option<string>)
      modifies this
      ensures old(id) != 0 ==> err == Some(ErrIDAlreadySet) && id == old(id)
      ensures old(id) == 0 && objectID <= 0 ==> err == Some(ErrIDNotPositive) && id == old(id)
      ensures old(id) == 0 && objectID > 0 ==> err == None && id == objectID
      ensures loaded == old(loaded) && prepared == old(prepared)
      ensures inProgress == old(inProgress) && ran == old(ran)
    {
      if id != 0 {
        return Some(ErrIDAlreadySet);
      }
      if objectID <= 0 {
        return Some(ErrIDNotPositive);
      }
      id := objectID;
      return None;
    }

    /** Load: reads the record unless it is already loaded. A successful
        read computes the field hash and clears prepared (AfterFind). */
    method Load(typeName: string, dbResult: Option<string>) returns (err: Option<string>)
      modifies this
      ensures err == LoadResult(old(loaded), id, typeName, dbResult)
      ensures loaded == (old(loaded) || err == None)
      ensures prepared == (old(prepared) && (old(loaded) || err != None))
      ensures id == old(id) && inProgress == old(inProgress) && ran == old(ran)
    {
      err := None;
      if !loaded {
        if id <= 0 {
          return Some(NonPositiveIDError(typeName, id));
        }
        err := dbResult;
        if err == None {
          loaded := true;
          prepared := false;
        }
      }
    }

    /** PrepareBase: nothing to do once prepared; otherwise load, run the
        callback (whose outcome is passed in), and mark the object prepared
        only when both succeeded. */
    method PrepareBase(typeName: string, dbResult: Option<string>, callbackResult: Option<string>)
      returns (err: Option<string>)
      modifies this
      ensures old(prepared) ==> err == None && loaded == old(loaded) && prepared
      ensures !old(prepared) ==> err == (if LoadResult(old(loaded), id, typeName, dbResult) != None
                                          then LoadResult(old(loaded), id, typeName, dbResult)
                                          else callbackResult)
      ensures prepared <==> err == None
      ensures loaded == (old(loaded) || (!old(prepared) && LoadResult(old(loaded), id, typeName, dbResult) == None))
      ensures id == old(id) && inProgress == old(inProgress) && ran == old(ran)
    {
      if prepared {
        return None;
      }
      err := Load(typeName, dbResult);
      if err != None {
        return;
      }
      if callbackResult != None {
        return callbackResult;
      }
      prepared := true;
      return None;
    }

    /** HandleInProgress: runs the callback only when the object is not
        already in progress, so nested calls it makes do nothing; the flag
        is reset when the callback returns. */
    method HandleInProgress(steps: seq<Step>)
      modifies this
      ensures inProgress == old(inProgress)
      ensures ran == old(ran) + (if old(inProgress) then [] else OwnWork(steps))
      ensures id == old(id) && loaded == old(loaded) && prepared == old(prepared)
      decreases steps, 1
    {
      if inProgress {
        return;
      }
      inProgress := true;
      RunSteps(steps);
      inProgress := false;
    }

    /** The callback itself, run with the in-progress flag set. */
    method RunSteps(steps: seq<Step>)
      requires inProgress
      modifies this
      ensures inProgress
      ensures ran == old(ran) + OwnWork(steps)
      ensures id == old(id) && loaded == old(loaded) && prepared == old(prepared)
      decreases steps, 0
    {
      var i := 0;
      while i < |steps|
        invariant 0 <= i <= |steps| && inProgress
        invariant ran == old(ran) + OwnWork(steps[..i])
        invariant id == old(id) && loaded == old(loaded) && prepared == old(prepared)
      {
        assert steps[..i + 1][..i] == steps[..i];
        match steps[i] {
          case Work(name) =>
            ran := ran + [name];
          case Reenter(inner) =>
            assert steps[i] in steps;
            HandleInProgress(inner);
        }
        i := i + 1;
      }
      assert steps[..|steps|] == steps;
    }
  }

  /** Only a callback's own work is done: a callback made of nested calls
      alone does nothing. */
  lemma {:induction false} NestedCallsDoNothing(steps: seq<Step>)
    requires forall k :: 0 <= k < |steps| ==> steps[k].Reenter?
    ensures OwnWork(steps) == []
  {
    if steps != [] {
      NestedCallsDoNothing(steps[..|steps| - 1]);
    }
  }

  /** Every work item of the callback is done, in order. */
  lemma {:induction false} OwnWorkOfWork(names: seq<string>, steps: seq<Step>)
    requires |steps| == |names|
    requires forall k :: 0 <= k < |steps| ==> steps[k] == Work(names[k])
    ensures OwnWork(steps) == names
  {
    if steps != [] {
      OwnWorkOfWork(names[..|names| - 1], steps[..|steps| - 1]);
    }
  }

  // ---------------------------------------------------------------------
  // sql.NullInt64 comparison

  datatype NullInt64 = NullInt64(int64: int, valid: bool)

  /** NullInt64ConfirmEqual: whether the two values match, and a description
      of the difference when they do not. */
  function NullInt64ConfirmEqual(valA: NullInt64, valB: NullInt64): (r: (bool, string))
  {
    if valA.valid == valB.valid then
      if !valA.valid then (true, "")
      else if valA.int64 == valB.int64 then (true, "")
      else (false, "Expected: " + IntToString(valA.int64) + " Got: " + IntToString(valB.int64))
    else if valA.valid then (false, "Expected: " + IntToString(valA.int64) + " Got: none")
    else (false, "Expected: none Got: " + IntToString(valB.int64))
  }

  /** Two null values match whatever their stored integers; two set values
      match when equal; the description is empty exactly on a match. */
  lemma NullInt64MatchIff(valA: NullInt64, valB: NullInt64)
    ensures NullInt64ConfirmEqual(valA, valB).0 <==>
      (valA.valid == valB.valid && (!valA.valid || valA.int64 == valB.int64))
    ensures NullInt64ConfirmEqual(valA, valB).0 <==> NullInt64ConfirmEqual(valA, valB).1 == ""
    ensures NullInt64ConfirmEqual(valA, valB).0 == NullInt64ConfirmEqual(valB, valA).0
  {
  }

  /** The description names the expected value first. */
  lemma NullInt64DiffNamesExpected(valA: NullInt64, valB: NullInt64)
    requires !NullInt64ConfirmEqual(valA, valB).0
    ensures valA.valid ==> HasPrefix(NullInt64ConfirmEqual(valA, valB).1, "Expected: " + IntToString(valA.int64) + " Got: ")
    ensures !valA.valid ==> NullInt64ConfirmEqual(valA, valB).1 == "Expected: none Got: " + IntToString(valB.int64)
  {
    var e := "Expected: " + IntToString(valA.int64) + " Got: ";
    if valA.valid && valB.valid {
      assert NullInt64ConfirmEqual(valA, valB).1 == e + IntToString(valB.int64);
    }
  }

  // ---------------------------------------------------------------------
  // Request headers

  /** A header whose name equals the wanted one ignoring case and which has
      at least one value. */
  ghost predicate HeaderMatches(headers: map<string, seq<string>>, k: string, headerName: string)
  {
    k in headers && |headers[k]| >= 1 && ToLower(k) == ToLower(headerName)
  }

  /** v is a value getCaseInsesitiveHeader may return: the first value of
      some matching header, or "" when no header matches. */
  ghost predicate HeaderValue(headers: map<string, seq<string>>, headerName: string, v: string)
  {
    (exists k :: HeaderMatches(headers, k, headerName) && v == headers[k][0])
      || ((forall k :: !HeaderMatches(headers, k, headerName)) && v == "")
  }

  /** getCaseInsesitiveHeader: the headers are visited in no fixed order
      and the first match is returned. */
  method GetCaseInsensitiveHeader(headers: map<string, seq<string>>, headerName: string) returns (v: string)
    ensures HeaderValue(headers, headerName, v)
  {
    var expected := ToLower(headerName);
    var rest := headers.Keys;
    while rest != {}
      invariant rest <= headers.Keys
      invariant forall k :: k in headers.Keys - rest ==> !HeaderMatches(headers, k, headerName)
      decreases |rest|
    {
      var header :| header in rest;
      if |headers[header]| >= 1 && ToLower(header) == expected {
        return headers[header][0];
      }
      rest := rest - {header};
    }
    return "";
  }

  /** With at most one matching header (as canonical header keys give),
      the value found is determined. */
  lemma HeaderValueUnique(headers: map<string, seq<string>>, headerName: string, v: string, w: string)
    requires forall j, k :: HeaderMatches(headers, j, headerName) && HeaderMatches(headers, k, headerName) ==> j == k
    requires HeaderValue(headers, headerName, v) && HeaderValue(headers, headerName, w)
    ensures v == w
  {
  }

  const ErrNoUser := "no user set"

  /** GetRemoteUser: the REMOTE_USER header, or an error when it is empty. */
  method GetRemoteUser(headers: map<string, seq<string>>) returns (r: Result<string>)
    ensures r.Ok? ==> r.value != "" && HeaderValue(headers, "REMOTE_USER", r.value)
    ensures r.Err? ==> r.msg == ErrNoUser && HeaderValue(headers, "REMOTE_USER", "")
  {
    var remoteUser := GetCaseInsensitiveHeader(headers, "REMOTE_USER");
    if remoteUser == "" {
      return Err(ErrNoUser);
    }
    return Ok(remoteUser);
  }

  /** The address of a user: the configured default user domain after an
      "@" when no organisation is given, the organisation appended as is
      otherwise. */
  function EmailAddress(user: string, org: string, defaultUserDomain: string): (r: string)
  {
    if org == "" then user + "@" + defaultUserDomain else user + org
  }

  lemma EmailAddressShape(user: string, org: string, defaultUserDomain: string)
    ensures HasPrefix(EmailAddress(user, org, defaultUserDomain), user)
    ensures org == "" ==> HasSuffix(EmailAddress(user, org, defaultUserDomain), "@" + defaultUserDomain)
    ensures org != "" ==> (HasSuffix(EmailAddress(user, org, defaultUserDomain), org)
      && |EmailAddress(user, org, defaultUserDomain)| == |user| + |org|)
  {
    var r := EmailAddress(user, org, defaultUserDomain);
    if org == "" {
      assert r[|r| - |"@" + defaultUserDomain|..] == "@" + defaultUserDomain;
    }
  }

  /** GetRemoteUserEmail: the address of the REMOTE_USER with the
      REMOTE_USER_ORG header as its organisation. */
  method GetRemoteUserEmail(headers: map<string, seq<string>>, defaultUserDomain: string) returns (r: Result<string>)
    ensures r.Err? ==> r == Err(ErrNoUser) && HeaderValue(headers, "REMOTE_USER", "")
    ensures r.Ok? ==> exists user, org ::
      (user != "" && HeaderValue(headers, "REMOTE_USER", user)
       && HeaderValue(headers, "REMOTE_USER_ORG", org) && r.value == EmailAddress(user, org, defaultUserDomain))
  {
    var user := GetRemoteUser(headers);
    if user.Err? {
      return Err(user.msg);
    }
    var org := GetCaseInsensitiveHeader(headers, "REMOTE_USER_ORG");
    if org == "" {
      r := Ok(user.value + "@" + defaultUserDomain);
    } else {
      r := Ok(user.value + org);
    }
    assert r.value == EmailAddress(user.value, org, defaultUserDomain);
    assert user.value != "" && HeaderValue(headers, "REMOTE_USER", user.value)
      && HeaderValue(headers, "REMOTE_USER_ORG", org);
  }

  // ---------------------------------------------------------------------
  // Form value normalisers

  /** GetActiveInactive: "inactive" is kept, anything else becomes "active". */
  function GetActiveInactive(cleartextState: string): (r: string)
    ensures r == StateInactive <==> cleartextState == StateInactive
    ensures r in {StateActive, StateInactive}
  {
    if cleartextState == StateInactive then StateInactive else StateActive
  }

  /** GetActiveInactiveExternal: "inactive" and "external" are kept,
      anything else becomes "active". */
  function GetActiveInactiveExternal(cleartextState: string): (r: string)
    ensures r in {StateActive, StateInactive, StateExternal}
    ensures cleartextState in {StateActive, StateInactive, StateExternal} ==> r == cleartextState
  {
    if cleartextState == StateInactive then StateInactive
    else if cleartextState == StateExternal then StateExternal
    else StateActive
  }

  /** GetActiveNewExternal: "new-external" is kept, anything else becomes
      "new". */
  function GetActiveNewExternal(cleartextState: string): (r: string)
    ensures r in {StateNew, StateNewExternal}
    ensures cleartextState in {StateNew, StateNewExternal} ==> r == cleartextState
  {
    if cleartextState == StateNewExternal then StateNewExternal else StateNew
  }

  /** The normalisers are idempotent and keep exactly their allowed states. */
  lemma NormalisersStable(s: string)
    ensures GetActiveInactive(GetActiveInactive(s)) == GetActiveInactive(s)
    ensures GetActiveInactiveExternal(GetActiveInactiveExternal(s)) == GetActiveInactiveExternal(s)
    ensures GetActiveNewExternal(GetActiveNewExternal(s)) == GetActiveNewExternal(s)
    ensures GetActiveInactive(s) == s <==> s in {StateActive, StateInactive}
    ensures GetActiveInactiveExternal(s) == s <==> s in {StateActive, StateInactive, StateExternal}
    ensures GetActiveNewExternal(s) == s <==> s in {StateNew, StateNewExternal}
  {
  }

  /** GetCheckboxState: a checked box sends "on", in one of three casings. */
  function GetCheckboxState(cleartextForm: string): (r: bool)
    ensures r ==> EqualFold(cleartextForm, "on")
  {
    cleartextForm == "on" || cleartextForm == "On" || cleartextForm == "ON"
  }

  /** Exactly the three listed casings are accepted; "oN" is not, although
      it equals "on" ignoring case. */
  lemma CheckboxCasings()
    ensures GetCheckboxState("on") && GetCheckboxState("On") && GetCheckboxState("ON")
    ensures !GetCheckboxState("oN") && EqualFold("oN", "on")
    ensures !GetCheckboxState("") && !GetCheckboxState("true") && !GetCheckboxState("off")
  {
  }
}
