// The API envelope (lib/api.go): errors carried as strings, the ID list
// responses, and an object response together with the lookup that takes
// the object back out.

module API {
  import opened Common
  import opened RegistrarObject

  const ErrorResponseType := "error"
  const DomainIDListType := "domainidlist"
  const HostIDListType := "hostidlist"
  const ContactIDListType := "contactidlist"

  /** APIRevisionHint: the current revision of one object. */
  datatype APIRevisionHint = APIRevisionHint(objectID: int, revisionID: int, lastUpdate: int)

  /** The fourteen export types an APIResponse has a field for. */
  datatype ExportKind =
    | DomainExportKind | DomainRevisionExportKind
    | HostExportKind | HostRevisionExportKind
    | ContactExportKind | ContactRevisionExportKind
    | APIUserExportKind | APIUserRevisionExportKind
    | ApproverExportKind | ApproverRevisionExportKind
    | ApproverSetExportKind | ApproverSetRevisionExportKind
    | ChangeRequestExportKind | ApprovalExportKind

  /** The message type that names the field of each export type. */
  function ObjectMessageType(k: ExportKind): string
  {
    match k
    case DomainExportKind => "domainobject"
    case DomainRevisionExportKind => "domainrevisionobject"
    case HostExportKind => "hostobject"
    case HostRevisionExportKind => "hostrevisionobject"
    case ContactExportKind => "contactobject"
    case ContactRevisionExportKind => "contactrevisionobject"
    case APIUserExportKind => "apiuserobject"
    case APIUserRevisionExportKind => "apiuserrevisionobject"
    case ApproverExportKind => "approverobject"
    case ApproverRevisionExportKind => "approverrevisionobject"
    case ApproverSetExportKind => "approversetobject"
    case ApproverSetRevisionExportKind => "approversetrevisionobject"
    case ChangeRequestExportKind => "changerequestobject"
    case ApprovalExportKind => "approvalobject"
  }

  /** The switch of GetRegistrarObject: the export type a message type
      names, if any. */
  function KindOfMessageType(messageType: string): (r: Option<ExportKind>)
    ensures r.Some? ==> ObjectMessageType(r.value) == messageType
    ensures r.None? ==> forall k :: ObjectMessageType(k) != messageType
  {
    if messageType == "domainobject" then Some(DomainExportKind)
    else if messageType == "domainrevisionobject" then Some(DomainRevisionExportKind)
    else if messageType == "hostobject" then Some(HostExportKind)
    else if messageType == "hostrevisionobject" then Some(HostRevisionExportKind)
    else if messageType == "contactobject" then Some(ContactExportKind)
    else if messageType == "contactrevisionobject" then Some(ContactRevisionExportKind)
    else if messageType == "apiuserobject" then Some(APIUserExportKind)
    else if messageType == "apiuserrevisionobject" then Some(APIUserRevisionExportKind)
    else if messageType == "approverobject" then Some(ApproverExportKind)
    else if messageType == "approverrevisionobject" then Some(ApproverRevisionExportKind)
    else if messageType == "approversetobject" then Some(ApproverSetExportKind)
    else if messageType == "approversetrevisionobject" then Some(ApproverSetRevisionExportKind)
    else if messageType == "changerequestobject" then Some(ChangeRequestExportKind)
    else if messageType == "approvalobject" then Some(ApprovalExportKind)
    else None
  }

  /** Every export type has its own message type, and none of them is the
      error type. */
  lemma MessageTypesDistinct(k: ExportKind)
    ensures KindOfMessageType(ObjectMessageType(k)) == Some(k)
    ensures ObjectMessageType(k) != ErrorResponseType
  {
  }

  // ---------------------------------------------------------------------
  // Errors as strings

  /** The messages of the errors that are not nil, in order; an error is
      Some(message) and nil is None. */
  function Messages(errs: seq<Option<string>>): seq<string>
  {
    if errs == [] then []
    else Messages(errs[..|errs| - 1]) + (if errs[|errs| - 1].Some? then [errs[|errs| - 1].value] else [])
  }

  /** The errors errors.New makes of the strings. */
  function AsErrors(strs: seq<string>): seq<Option<string>>
  {
    seq(|strs|, i requires 0 <= i < |strs| => Some(strs[i]))
  }

  /** ErrsToStrings. */
  method ErrsToStrings(errs: seq<Option<string>>) returns (strs: seq<string>)
    ensures strs == Messages(errs)
  {
    strs := [];
    for i := 0 to |errs|
      invariant strs == Messages(errs[..i])
    {
      assert errs[..i + 1][..i] == errs[..i];
      if errs[i].Some? {
        strs := strs + [errs[i].value];
      }
    }
    assert errs[..|errs|] == errs;
  }

  /** StringsToErrs. */
  method StringsToErrs(strs: seq<string>) returns (errs: seq<Option<string>>)
    ensures errs == AsErrors(strs)
  {
    errs := [];
    for i := 0 to |strs|
      invariant errs == AsErrors(strs[..i])
    {
      errs := errs + [Some(strs[i])];
    }
    assert strs[..|strs|] == strs;
  }

  /** The messages of two runs of errors are the messages of each, in
      order: nil errors are dropped and nothing is reordered. */
  lemma {:induction false} MessagesAppend(a: seq<Option<string>>, b: seq<Option<string>>)
    ensures Messages(a + b) == Messages(a) + Messages(b)
  {
    if b != [] {
      var b' := b[..|b| - 1];
      assert (a + b)[..|a + b| - 1] == a + b';
      MessagesAppend(a, b');
    } else {
      assert a + b == a;
    }
  }

  /** Only nil errors leave no message behind, and there are never more
      messages than errors. */
  lemma {:induction false} MessagesDropNil(errs: seq<Option<string>>)
    ensures |Messages(errs)| <= |errs|
    ensures Messages(errs) == [] <==> forall i :: 0 <= i < |errs| ==> errs[i].None?
  {
    if errs != [] {
      var init := errs[..|errs| - 1];
      MessagesDropNil(init);
      assert forall i :: 0 <= i < |init| ==> init[i] == errs[i];
    }
  }

  /** ErrsToStrings(StringsToErrs(s)) == s. */
  lemma {:induction false} ErrorsRoundTrip(strs: seq<string>)
    ensures Messages(AsErrors(strs)) == strs
  {
    if strs != [] {
      var init := strs[..|strs| - 1];
      assert AsErrors(strs)[..|strs| - 1] == AsErrors(init);
      ErrorsRoundTrip(init);
    }
  }

  // ---------------------------------------------------------------------
  // Responses

  /** A RegistrarObjectExport: one of the fourteen export types with its
      contents, or a value of another type, known by its type name. */
  datatype ObjectExport<T> = Supported(kind: ExportKind, contents: T) | Unsupported(typeName: string)

  /** The APIResponse fields this model reads: the message type, the
      object fields (a missing key is a nil pointer), the ID and hint list
      fields keyed by object type, and the error strings. */
  datatype APIResponse<T> = APIResponse(
    messageType: string, objects: map<ExportKind, T>,
    idLists: map<string, seq<int>>, hintLists: map<string, seq<APIRevisionHint>>,
    errors: seq<string>)

  /** GenerateErrorResponse. */
  method GenerateErrorResponse<T>(errs: seq<Option<string>>) returns (r: APIResponse<T>)
    ensures r.messageType == ErrorResponseType
    ensures r.errors == Messages(errs)
    ensures r.objects == map[] && r.idLists == map[] && r.hintLists == map[]
  {
    var strs := ErrsToStrings(errs);
    r := APIResponse(ErrorResponseType, map[], map[], map[], strs);
  }

  /** The ID list message type of an object type, if it has one. */
  function IDListType(objectType: string): Option<string>
  {
    if objectType == DomainType then Some(DomainIDListType)
    else if objectType == HostType then Some(HostIDListType)
    else if objectType == ContactType then Some(ContactIDListType)
    else None
  }

  /** GenerateIDList. */
  function GenerateIDList<T>(objectType: string, ids: seq<int>, revisions: seq<APIRevisionHint>): (r: APIResponse<T>)
    ensures r.objects == map[]
    ensures IDListType(objectType).Some? ==>
      r.messageType == IDListType(objectType).value
      && r.idLists == map[objectType := ids] && r.hintLists == map[objectType := revisions] && r.errors == []
    ensures IDListType(objectType).None? ==>
      r.messageType == ErrorResponseType && r.idLists == map[] && r.hintLists == map[]
      && r.errors == ["Unknown object type " + objectType]
  {
    match IDListType(objectType)
    case Some(listType) => APIResponse(listType, map[], map[objectType := ids], map[objectType := revisions], [])
    case None => APIResponse(ErrorResponseType, map[], map[], map[], ["Unknown object type " + objectType])
  }

  /** Only the domain, host and contact types have ID lists, each under a
      message type of its own. */
  lemma IDListTypes(objectType: string)
    ensures IDListType(objectType).Some? <==> objectType in {DomainType, HostType, ContactType}
    ensures forall other :: other != objectType && IDListType(objectType).Some? ==>
      IDListType(other) != IDListType(objectType)
  {
  }

  /** GenerateObjectResponse. */
  function GenerateObjectResponse<T>(obj: ObjectExport<T>): (r: APIResponse<T>)
    ensures r.idLists == map[] && r.hintLists == map[]
    ensures obj.Supported? ==>
      KindOfMessageType(r.messageType) == Some(obj.kind)
      && r.objects == map[obj.kind := obj.contents] && r.errors == []
    ensures obj.Unsupported? ==>
      r.messageType == ErrorResponseType && r.objects == map[]
      && r.errors == ["unsupported object type " + obj.typeName]
  {
    match obj
    case Supported(k, contents) =>
      MessageTypesDistinct(k);
      APIResponse(ObjectMessageType(k), map[k := contents], map[], map[], [])
    case Unsupported(name) => APIResponse(ErrorResponseType, map[], map[], map[], ["unsupported object type " + name])
  }

  /** What GetRegistrarObject hands back: the field of the named export
      type (None for a nil field), the errors of an error response, or
      nothing at all for another message type. */
  datatype Fetched<T> = FetchedObject(kind: ExportKind, value: Option<T>) | FetchedErrors(errs: seq<Option<string>>) | FetchedNothing

  /** GetRegistrarObject. */
  function GetRegistrarObject<T>(r: APIResponse<T>): (f: Fetched<T>)
    ensures f.FetchedObject? <==> KindOfMessageType(r.messageType).Some?
    ensures f.FetchedObject? ==>
      ObjectMessageType(f.kind) == r.messageType
      && f.value == if f.kind in r.objects then Some(r.objects[f.kind]) else None
    ensures f.FetchedErrors? <==> r.messageType == ErrorResponseType
    ensures f.FetchedErrors? ==> Messages(f.errs) == r.errors
  {
    match KindOfMessageType(r.messageType)
    case Some(k) => FetchedObject(k, if k in r.objects then Some(r.objects[k]) else None)
    case None =>
      if r.messageType == ErrorResponseType then
        ErrorsRoundTrip(r.errors);
        FetchedErrors(AsErrors(r.errors))
      else FetchedNothing
  }

  /** An object response gives back the object it was made from, for every
      export type; any other value comes back as the one error naming its
      type. */
  lemma ObjectResponseRoundTrip<T>(obj: ObjectExport<T>)
    ensures obj.Supported? ==>
      GetRegistrarObject(GenerateObjectResponse(obj)) == FetchedObject(obj.kind, Some(obj.contents))
    ensures obj.Unsupported? ==>
      GetRegistrarObject(GenerateObjectResponse(obj)) == FetchedErrors([Some("unsupported object type " + obj.typeName)])
  {
    if obj.Unsupported? {
      assert AsErrors(["unsupported object type " + obj.typeName]) == [Some("unsupported object type " + obj.typeName)];
    }
  }

  /** An error response gives back its errors, nil ones dropped. */
  lemma ErrorResponseRoundTrip<T>(errs: seq<Option<string>>, r: APIResponse<T>)
    requires r.messageType == ErrorResponseType && r.errors == Messages(errs)
    ensures GetRegistrarObject(r).FetchedErrors?
    ensures Messages(GetRegistrarObject(r).errs) == Messages(errs)
  {
  }
}
