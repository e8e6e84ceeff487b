// Object states, action names and object type names shared by every
// registrar object, and the factory that maps a type name to an object.
module RegistrarObject {
  import opened Common

  // States an object, revision, change request or approval can be in.
  const StateActive := "active"
  const StateApproved := "approved"
  const StateBootstrap := "bootstrap"
  const StatePendingBootstrap := "pendingbootstrap"
  const StateCancelled := "cancelled"
  const StateDeclined := "declined"
  const StateApprovalFailed := "approvalfailed"
  const StateInactive := "inactive"
  const StateExternal := "external"
  const StateNewExternal := "new-external"
  const StateNew := "new"
  const StatePendingApproval := "pendingapproval"
  const StateActivePendingApproval := "activependingapproval"
  const StateInactivePendingApproval := "inactivependingapproval"
  const StateExternalPendingApproval := "externalpendingapproval"
  const StatePendingNew := "pendingnew"
  const StatePendingNewExternal := "pendingnewexternal"
  const StateNoValidApprovers := "novalidapprovers"
  const StateSkippedNoValidApprovers := "skippednovalidapprovers"
  const StateInactiveApproverSet := "inactiveapproverset"
  const StateSkippedInactiveApproverSet := "skippedinactiveapproverset"
  const StateImplemented := "implemented"
  const StateSuperseded := "superseded"

  // Actions a user or approver can take.
  const ActionApproved := "approve"
  const ActionDeclined := "decline"
  const ActionCancel := "cancel"
  const ActionStartApproval := "startapproval"
  const ActionGet := "get"
  const ActionUpdateEPPInfo := "updateEPPInfo"
  const ActionUpdateEPPCheckRequired := "updateEPPCheckRequired"
  const ActionTriggerUpdate := "triggerUpdate"
  const ActionUpdatePreview := "updatePreview"

  const UnknownObjectTypeError := "Unknown object type"
  const SavedObjectNote := "SavedObjectNote"

  // Revision events HasHappened knows.
  const EventUpdated := "Updated"
  const EventApprovalStarted := "ApprovalStarted"
  const EventApprovalFailed := "ApprovalFailed"
  const EventPromoted := "Promoted"
  const EventSuperseded := "Superseded"

  const DesiredStateActive := "DesiredStateActive"
  const DesiredStateInactive := "DesiredStateInactive"
  const DesiredStateExternal := "DesiredStateExternal"

  // Object type names.
  const ApproverType := "approver"
  const ApproverRevisionType := "approverrevision"
  const ApproverSetType := "approverset"
  const ApproverSetRevisionType := "approversetrevision"
  const ChangeRequestType := "changerequest"
  const ApprovalType := "approval"
  const ContactType := "contact"
  const ContactRevisionType := "contactrevision"
  const HostType := "host"
  const HostRevisionType := "hostrevision"
  const DomainType := "domain"
  const DomainRevisionType := "domainrevision"
  const APIUserType := "apiuser"
  const APIUserRevisionType := "apiuserrevision"

  /** The zones in which domains can be registered. */
  const ValidSuffixList: seq<string> := [".COM", ".NET"]

  /** The fourteen kinds of registrar object. */
  datatype ObjectKind =
    | Approver | ApproverRevision | ApproverSet | ApproverSetRevision
    | ChangeRequest | Approval | Contact | ContactRevision
    | Host | HostRevision | Domain | DomainRevision | APIUser | APIUserRevision

  /** GetType of each kind of object. */
  function GetType(k: ObjectKind): string
  {
    match k
    case Approver => ApproverType
    case ApproverRevision => ApproverRevisionType
    case ApproverSet => ApproverSetType
    case ApproverSetRevision => ApproverSetRevisionType
    case ChangeRequest => ChangeRequestType
    case Approval => ApprovalType
    case Contact => ContactType
    case ContactRevision => ContactRevisionType
    case Host => HostType
    case HostRevision => HostRevisionType
    case Domain => DomainType
    case DomainRevision => DomainRevisionType
    case APIUser => APIUserType
    case APIUserRevision => APIUserRevisionType
  }

  const TypeNames: set<string> := {
    ApproverType, ApproverRevisionType, ApproverSetType, ApproverSetRevisionType,
    ChangeRequestType, ApprovalType, ContactType, ContactRevisionType,
    HostType, HostRevisionType, DomainType, DomainRevisionType, APIUserType, APIUserRevisionType
  }

  /** Go's %q (strconv.Quote): quotes around the text, with '"' and '\'
      escaped and each ASCII control character written as an escape. */
  function Quote(s: string): string
  {
    "\"" + QuoteBody(s) + "\""
  }

  function QuoteBody(s: string): string
  {
    if s == [] then [] else QuoteChar(s[0]) + QuoteBody(s[1..])
  }

  /** A control character: below ' ' or DEL. */
  predicate IsAsciiControl(c: char)
  {
    c < ' ' || c == '\U{7F}'
  }

  /** One character as strconv.Quote writes it: the seven letter escapes,
      "\xNN" in lower-case hex for the other control characters, and the
      character itself otherwise. */
  function QuoteChar(c: char): string
  {
    if c == '"' || c == '\\' then ['\\', c]
    else if c == '\U{07}' then "\\a"
    else if c == '\U{08}' then "\\b"
    else if c == '\U{0C}' then "\\f"
    else if c == '\n' then "\\n"
    else if c == '\r' then "\\r"
    else if c == '\t' then "\\t"
    else if c == '\U{0B}' then "\\v"
    else if IsAsciiControl(c) then
      var n := c as int;
      "\\x" + [HexDigit(n / 16), HexDigit(n % 16)]
    else [c]
  }

  function HexDigit(n: int): char
    requires 0 <= n < 16
  {
    "0123456789abcdef"[n]
  }

  /** The quoted text of a name holds no control character: every one is
      spelt out with printable characters. */
  lemma {:induction false} QuoteBodyPrintable(s: string)
    ensures forall i :: 0 <= i < |QuoteBody(s)| ==> !IsAsciiControl(QuoteBody(s)[i])
  {
    if s != [] {
      QuoteBodyPrintable(s[1..]);
      var head, tail := QuoteChar(s[0]), QuoteBody(s[1..]);
      assert QuoteBody(s) == head + tail;
      forall i | 0 <= i < |head + tail|
        ensures !IsAsciiControl((head + tail)[i])
      {
        if i >= |head| {
          assert (head + tail)[i] == tail[i - |head|];
        }
      }
    }
  }

  /** A newline in the name is written as the two characters '\' 'n'. */
  lemma QuoteNewline()
    ensures Quote("a\nb") == "\"a\\nb\""
  {
    assert QuoteBody("a\nb") == "a" + QuoteBody("\nb");
    assert QuoteBody("\nb") == "\\n" + QuoteBody("b");
  }

  /** NewRegistrarObject: an object for each of the fourteen type names,
      whose type is the name asked for; any other name is an error. */
  function NewRegistrarObject(objectType: string): (r: Result<ObjectKind>)
    ensures r.Ok? <==> objectType in TypeNames
    ensures r.Ok? ==> GetType(r.value) == objectType
    ensures r.Err? ==> r.msg == UnknownObjectTypeError + " " + Quote(objectType)
  {
    if objectType == ApproverType then Ok(Approver)
    else if objectType == ApproverRevisionType then Ok(ApproverRevision)
    else if objectType == ApproverSetType then Ok(ApproverSet)
    else if objectType == ApproverSetRevisionType then Ok(ApproverSetRevision)
    else if objectType == ChangeRequestType then Ok(ChangeRequest)
    else if objectType == ApprovalType then Ok(Approval)
    else if objectType == ContactType then Ok(Contact)
    else if objectType == ContactRevisionType then Ok(ContactRevision)
    else if objectType == HostType then Ok(Host)
    else if objectType == HostRevisionType then Ok(HostRevision)
    else if objectType == DomainType then Ok(Domain)
    else if objectType == DomainRevisionType then Ok(DomainRevision)
    else if objectType == APIUserType then Ok(APIUser)
    else if objectType == APIUserRevisionType then Ok(APIUserRevision)
    else Err(UnknownObjectTypeError + " " + Quote(objectType))
  }

  /** The factory is the inverse of GetType. */
  lemma FactoryInvertsGetType(k: ObjectKind)
    ensures NewRegistrarObject(GetType(k)) == Ok(k)
  {
  }

  /** Names are matched exactly: surrounding white space is not trimmed. */
  lemma PaddedNameRejected(name: string)
    requires name in TypeNames
    ensures NewRegistrarObject(" " + name).Err? && NewRegistrarObject(name + " ").Err?
  {
    assert forall t | t in TypeNames :: NoChar(t, ' ');
    assert (" " + name)[0] == ' ';
    assert (name + " ")[|name|] == ' ';
  }

  /** NotExportableObject.GetDiff and ToJSON: always an error. */
  function NotExportableGetDiff(): (r: Result<string>)
    ensures r.Err? && r.msg == "unable to export this type"
  {
    Err("unable to export this type")
  }

  function NotExportableToJSON(): (r: Result<string>)
    ensures r.Err? && r.msg == "unable to export this type"
  {
    Err("unable to export this type")
  }

  // ---------------------------------------------------------------------
  // The action menu all revision kinds share

  /** "/action/<type>/<id>/<action>". */
  function ActionURL(objType: string, id: int, action: string): string
  {
    "/action/" + objType + "/" + IntToString(id) + "/" + action
  }

  /** "/view/<type>/<id>". */
  function ViewURL(objType: string, id: int): string
  {
    "/view/" + objType + "/" + IntToString(id)
  }

  /** The action menu of a domain, host, contact, approver or API user
      revision: `noun` is the parent's display name ("Domain", "API User",
      ...), `revType` and `parentType` are the two type names. */
  predicate RevisionMenu(ret: map<string, string>, revType: string, parentType: string, noun: string,
                         id: int, parentID: int, state: string, isSelf: bool)
  {
    var parent := "View Parent " + noun;
    var edit := "View/Edit " + noun + " Revision";
    (state == StateNew ==>
      ret.Keys == {"Start Approval Process", "Cancel Revision", if isSelf then parent else edit}
      && ret["Start Approval Process"] == ActionURL(revType, id, ActionStartApproval)
      && ret["Cancel Revision"] == ActionURL(revType, id, ActionCancel)
      && (isSelf ==> ret[parent] == ViewURL(parentType, parentID))
      && (!isSelf ==> ret[edit] == ViewURL(revType, id)))
    && (state == StatePendingApproval ==>
      ret.Keys == {"View Change Request", "Cancel Revision"} + (if isSelf then {parent} else {})
      && ret["View Change Request"] == ActionURL(revType, id, "gotochangerequest")
      && ret["Cancel Revision"] == ActionURL(revType, id, ActionCancel)
      && (isSelf ==> ret[parent] == ViewURL(parentType, parentID)))
    && (state == StateCancelled ==>
      ret.Keys == {"View Change Request"} + (if isSelf then {parent} else {})
      && ret["View Change Request"] == ActionURL(revType, id, "gotochangerequest")
      && (isSelf ==> ret[parent] == ViewURL(parentType, parentID)))
    && (state !in {StateNew, StatePendingApproval, StateCancelled} ==> ret == map[])
  }

  /** Builds the shared menu entry by entry, as each GetActions does. */
  method RevisionActions(revType: string, parentType: string, noun: string,
                         id: int, parentID: int, state: string, isSelf: bool)
    returns (ret: map<string, string>)
    ensures RevisionMenu(ret, revType, parentType, noun, id, parentID, state, isSelf)
    ensures |ret| == RevisionActionCount(state, isSelf)
  {
    MenuKeysDistinct(noun);
    ret := map[];
    if state == StateNew {
      ret := ret["Start Approval Process" := ActionURL(revType, id, ActionStartApproval)];
      ret := ret["Cancel Revision" := ActionURL(revType, id, ActionCancel)];
      if isSelf {
        ret := ret["View Parent " + noun := ViewURL(parentType, parentID)];
      } else {
        ret := ret["View/Edit " + noun + " Revision" := ViewURL(revType, id)];
      }
    }
    if state == StatePendingApproval {
      ret := ret["View Change Request" := ActionURL(revType, id, "gotochangerequest")];
      ret := ret["Cancel Revision" := ActionURL(revType, id, ActionCancel)];
      if isSelf {
        ret := ret["View Parent " + noun := ViewURL(parentType, parentID)];
      }
    }
    if state == StateCancelled {
      ret := ret["View Change Request" := ActionURL(revType, id, "gotochangerequest")];
      if isSelf {
        ret := ret["View Parent " + noun := ViewURL(parentType, parentID)];
      }
    }
    RevisionMenuSize(ret, revType, parentType, noun, id, parentID, state, isSelf);
  }

  lemma MenuKeysDistinct(noun: string)
    ensures "View Parent " + noun !in {"Start Approval Process", "Cancel Revision", "View Change Request"}
    ensures "View/Edit " + noun + " Revision" !in {"Start Approval Process", "Cancel Revision", "View Change Request"}
  {
    var parent := "View Parent " + noun;
    var edit := "View/Edit " + noun + " Revision";
    assert parent[0] == 'V' && parent[4] == ' ' && parent[5] == 'P';
    assert edit[0] == 'V' && edit[4] == '/';
  }

  /** The number of entries of the shared menu: new 3, pending approval
      2 and cancelled 1, plus the parent link on the parent's own page
      (new has the revision link instead). */
  function RevisionActionCount(state: string, isSelf: bool): nat
  {
    if state == StateNew then 3
    else if state == StatePendingApproval then (if isSelf then 3 else 2)
    else if state == StateCancelled then (if isSelf then 2 else 1)
    else 0
  }

  /** The parent link never collides with the fixed entries, so the menu
      has the tabulated size. */
  lemma RevisionMenuSize(ret: map<string, string>, revType: string, parentType: string, noun: string,
                         id: int, parentID: int, state: string, isSelf: bool)
    requires RevisionMenu(ret, revType, parentType, noun, id, parentID, state, isSelf)
    ensures |ret| == RevisionActionCount(state, isSelf)
  {
    MenuKeysDistinct(noun);
    assert |ret| == |ret.Keys|;
  }

  /** The menu offers to start the approval process exactly while the
      revision is editable (state new), offers the change request exactly
      once the approval process has started, and never offers to cancel a
      cancelled revision. */
  lemma RevisionMenuFollowsState(ret: map<string, string>, revType: string, parentType: string, noun: string,
                                 id: int, parentID: int, state: string, isSelf: bool)
    requires RevisionMenu(ret, revType, parentType, noun, id, parentID, state, isSelf)
    ensures "Start Approval Process" in ret <==> state == StateNew
    ensures "View Change Request" in ret <==> state == StatePendingApproval || state == StateCancelled
    ensures "Cancel Revision" in ret <==> state == StateNew || state == StatePendingApproval
  {
    MenuKeysDistinct(noun);
  }

  // ---------------------------------------------------------------------
  // Helpers every revision kind repeats

  /** GetState of the approver, approver set and API user revisions: the
      state a form asks for, limited to active and inactive. */
  function RevisionFormState(cleartextState: string): (r: string)
    ensures r == StateActive || r == StateInactive
    ensures r == StateInactive <==> cleartextState == StateInactive
  {
    if cleartextState == StateInactive then StateInactive else StateActive
  }

  /** The timestamps of a revision (as numbers); None is a nil pointer. */
  datatype RevisionTimes = RevisionTimes(
    createdAt: int, updatedAt: int,
    approvalStartTime: Option<int>, approvalFailedTime: Option<int>,
    promotedTime: Option<int>, supersededTime: Option<int>)

  /** The timestamp each event name stands for. */
  function EventTime(t: RevisionTimes, actionType: string): Option<int>
  {
    if actionType == EventUpdated then Some(t.updatedAt)
    else if actionType == EventApprovalStarted then t.approvalStartTime
    else if actionType == EventApprovalFailed then t.approvalFailedTime
    else if actionType == EventPromoted then t.promotedTime
    else if actionType == EventSuperseded then t.supersededTime
    else None
  }

  /** HasHappened: the event's timestamp is set and not before the
      revision's creation (`!t.Before(createdAt)`). */
  function HasHappened(t: RevisionTimes, actionType: string): (r: bool)
    ensures r <==> EventTime(t, actionType).Some? && EventTime(t, actionType).value >= t.createdAt
  {
    if actionType == EventUpdated then t.updatedAt >= t.createdAt
    else if actionType == EventApprovalStarted then t.approvalStartTime.Some? && t.approvalStartTime.value >= t.createdAt
    else if actionType == EventApprovalFailed then t.approvalFailedTime.Some? && t.approvalFailedTime.value >= t.createdAt
    else if actionType == EventPromoted then t.promotedTime.Some? && t.promotedTime.value >= t.createdAt
    else if actionType == EventSuperseded then t.supersededTime.Some? && t.supersededTime.value >= t.createdAt
    else false
  }

  /** Unknown event names and unset timestamps never count as happened;
      an update at the creation instant does. */
  lemma HasHappenedEdges(t: RevisionTimes, actionType: string)
    ensures actionType !in {EventUpdated, EventApprovalStarted, EventApprovalFailed, EventPromoted, EventSuperseded} ==>
      !HasHappened(t, actionType)
    ensures actionType == EventPromoted && t.promotedTime.None? ==> !HasHappened(t, actionType)
    ensures actionType == EventSuperseded && t.supersededTime.None? ==> !HasHappened(t, actionType)
    ensures t.updatedAt == t.createdAt ==> HasHappened(t, EventUpdated)
  {
  }

  /** The ToJSON guard every export shares: an export without a positive
      ID is refused; the JSON encoding is passed in. */
  function ExportToJSON<E>(e: E, id: int, idError: string, marshal: E -> string): (r: Result<string>)
    ensures r.Err? <==> id <= 0
    ensures r.Err? ==> r.msg == idError
    ensures r.Ok? ==> r.value == marshal(e)
  {
    if id <= 0 then Err(idError) else Ok(marshal(e))
  }

  // ---------------------------------------------------------------------
  // The field-by-field Compare every export repeats

  /** One `if a.F != b.F { errs = append(errs, msg); pass = false }`. */
  datatype FieldCheck = FieldCheck(same: bool, msg: string)

  predicate AllSame(cs: seq<FieldCheck>)
  {
    forall i :: 0 <= i < |cs| ==> cs[i].same
  }

  /** The messages of the failing checks, in order. */
  function Failed(cs: seq<FieldCheck>): seq<string>
  {
    if cs == [] then []
    else Failed(cs[..|cs| - 1]) + (if cs[|cs| - 1].same then [] else [cs[|cs| - 1].msg])
  }

  /** A compare passes exactly when it reports no error, and it reports
      exactly the messages of the fields that differ. */
  lemma {:induction false} FailedMessages(cs: seq<FieldCheck>)
    ensures Failed(cs) == [] <==> AllSame(cs)
    ensures |Failed(cs)| <= |cs|
    ensures forall m :: m in Failed(cs) <==> exists i :: 0 <= i < |cs| && !cs[i].same && cs[i].msg == m
  {
    if cs != [] {
      var init := cs[..|cs| - 1];
      FailedMessages(init);
      assert forall i :: 0 <= i < |init| ==> init[i] == cs[i];
      forall m | m in Failed(cs)
        ensures exists i :: 0 <= i < |cs| && !cs[i].same && cs[i].msg == m
      {
        if m !in Failed(init) {
          assert !cs[|cs| - 1].same && cs[|cs| - 1].msg == m;
        }
      }
      forall m | exists i :: 0 <= i < |cs| && !cs[i].same && cs[i].msg == m
        ensures m in Failed(cs)
      {
        var i :| 0 <= i < |cs| && !cs[i].same && cs[i].msg == m;
        if i < |init| {
          assert !init[i].same && init[i].msg == m;
        }
      }
      if AllSame(cs) {
        assert AllSame(init);
      }
    }
  }

  /** Runs the checks of a Compare in order: every failing check appends
      its message and clears `pass`. */
  method RunCompare(cs: seq<FieldCheck>) returns (pass: bool, errs: seq<string>)
    ensures pass <==> AllSame(cs)
    ensures errs == Failed(cs)
  {
    pass, errs := true, [];
    var i := 0;
    while i < |cs|
      invariant 0 <= i <= |cs|
      invariant pass <==> AllSame(cs[..i])
      invariant errs == Failed(cs[..i])
    {
      assert cs[..i + 1][..i] == cs[..i];
      if !cs[i].same {
        errs := errs + [cs[i].msg];
        pass := false;
      }
      assert forall k :: 0 <= k < i ==> cs[..i + 1][k] == cs[..i][k];
      i := i + 1;
    }
    assert cs[..|cs|] == cs;
  }
}
