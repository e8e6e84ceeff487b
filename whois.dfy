// The WHOIS generator's helpers (whois-generator/main.go): the status
// lines with their ICANN links, the dict template helper and the
// expansion of configured paths.

module Whois {
  import opened Common

  // ---------------------------------------------------------------------
  // Status lines

  const IcannEPPLinkInfix := " https://icann.org/epp#"

  /** getIcannEPPStatusCodeLink: the status, then the ICANN page for it. */
  function IcannEPPStatusCodeLink(status: string): (r: string)
    ensures HasPrefix(r, status + " ") && HasSuffix(r, "#" + status)
    ensures |r| == 2 * |status| + |IcannEPPLinkInfix|
  {
    var r := status + IcannEPPLinkInfix + status;
    assert r[..|status| + 1] == status + " ";
    assert r[|r| - |status| - 1..] == "#" + status;
    r
  }

  /** A status line names its status: different statuses give different
      lines. */
  lemma StatusLinkInjective(a: string, b: string)
    requires IcannEPPStatusCodeLink(a) == IcannEPPStatusCodeLink(b)
    ensures a == b
  {
    var la, lb := IcannEPPStatusCodeLink(a), IcannEPPStatusCodeLink(b);
    assert |a| == |b|;
    assert a == la[..|a|] && b == lb[..|b|];
  }

  /** The status flags of the domain shown in a WHOIS record. */
  datatype DomainStatusFlags = DomainStatusFlags(
    clientDeleteProhibited: bool, clientHold: bool, clientRenewProhibited: bool,
    clientTransferProhibited: bool, clientUpdateProhibited: bool,
    serverDeleteProhibited: bool, serverHold: bool, serverRenewProhibited: bool,
    serverTransferProhibited: bool, serverUpdateProhibited: bool,
    pendingUpdate: bool, pendingTransfer: bool, pendingRenew: bool,
    pendingDelete: bool, pendingCreate: bool,
    ok: bool)

  /** The EPP statuses a WHOIS record can show. */
  datatype EPPStatus =
    | ClientDeleteProhibited | ClientHold | ClientRenewProhibited | ClientTransferProhibited | ClientUpdateProhibited
    | ServerDeleteProhibited | ServerHold | ServerRenewProhibited | ServerTransferProhibited | ServerUpdateProhibited
    | PendingUpdate | PendingTransfer | PendingRenew | PendingDelete | PendingCreate
    | OK

  /** The status code of RFC 5731 section 2.3 that names a status. */
  function StatusCode(s: EPPStatus): string
  {
    match s
    case ClientDeleteProhibited => "clientDeleteProhibited"
    case ClientHold => "clientHold"
    case ClientRenewProhibited => "clientRenewProhibited"
    case ClientTransferProhibited => "clientTransferProhibited"
    case ClientUpdateProhibited => "clientUpdateProhibited"
    case ServerDeleteProhibited => "serverDeleteProhibited"
    case ServerHold => "serverHold"
    case ServerRenewProhibited => "serverRenewProhibited"
    case ServerTransferProhibited => "serverTransferProhibited"
    case ServerUpdateProhibited => "serverUpdateProhibited"
    case PendingUpdate => "pendingUpdate"
    case PendingTransfer => "pendingTransfer"
    case PendingRenew => "pendingRenew"
    case PendingDelete => "pendingDelete"
    case PendingCreate => "pendingCreate"
    case OK => "ok"
  }

  /** Different statuses have different codes. */
  lemma StatusCodeInjective(a: EPPStatus, b: EPPStatus)
    requires StatusCode(a) == StatusCode(b)
    ensures a == b
  {
  }

  /** The line a WHOIS record shows for a status. */
  function StatusLine(s: EPPStatus): (r: string)
    ensures HasPrefix(r, StatusCode(s) + " ") && HasSuffix(r, "#" + StatusCode(s))
  {
    IcannEPPStatusCodeLink(StatusCode(s))
  }

  /** Each status line with its flag, in the order the record lists them:
      the client statuses, the server statuses, the pending statuses, then
      ok. */
  function StatusLines(d: DomainStatusFlags): seq<(string, bool)>
  {
    [] + [(StatusLine(ClientDeleteProhibited), d.clientDeleteProhibited)]
    + [(StatusLine(ClientHold), d.clientHold)]
    + [(StatusLine(ClientRenewProhibited), d.clientRenewProhibited)]
    + [(StatusLine(ClientTransferProhibited), d.clientTransferProhibited)]
    + [(StatusLine(ClientUpdateProhibited), d.clientUpdateProhibited)]
    + [(StatusLine(ServerDeleteProhibited), d.serverDeleteProhibited)]
    + [(StatusLine(ServerHold), d.serverHold)]
    + [(StatusLine(ServerRenewProhibited), d.serverRenewProhibited)]
    + [(StatusLine(ServerTransferProhibited), d.serverTransferProhibited)]
    + [(StatusLine(ServerUpdateProhibited), d.serverUpdateProhibited)]
    + [(StatusLine(PendingUpdate), d.pendingUpdate)]
    + [(StatusLine(PendingTransfer), d.pendingTransfer)]
    + [(StatusLine(PendingRenew), d.pendingRenew)]
    + [(StatusLine(PendingDelete), d.pendingDelete)]
    + [(StatusLine(PendingCreate), d.pendingCreate)]
    + [(StatusLine(OK), d.ok)]
  }

  /** The value, when its flag is set. */
  function IfSet<T>(flag: bool, x: T): seq<T>
  {
    if flag then [x] else []
  }

  /** The values of the entries whose flag is set, in table order. */
  function Selected<T>(t: seq<(T, bool)>): seq<T>
  {
    if t == [] then []
    else Selected(t[..|t| - 1]) + IfSet(t[|t| - 1].1, t[|t| - 1].0)
  }

  /** The positions in the table of the selected values: strictly
      increasing, exactly the positions whose flag is set, and naming the
      selected values one by one. */
  function SelectedPositions<T>(t: seq<(T, bool)>): (idx: seq<int>)
    ensures |idx| == |Selected(t)|
    ensures forall i :: 0 <= i < |idx| ==> 0 <= idx[i] < |t| && t[idx[i]].0 == Selected(t)[i]
    ensures forall i, j :: 0 <= i < j < |idx| ==> idx[i] < idx[j]
    ensures forall p :: 0 <= p < |t| ==> (t[p].1 <==> p in idx)
  {
    if t == [] then []
    else
      var init := t[..|t| - 1];
      var last := t[|t| - 1];
      var rest := SelectedPositions(init);
      assert Selected(t) == Selected(init) + IfSet(last.1, last.0);
      assert forall p :: 0 <= p < |init| ==> init[p] == t[p];
      assert forall i :: 0 <= i < |rest| ==> rest[i] < |t| - 1;
      if last.1 then
        var idx := rest + [|t| - 1];
        assert forall i :: 0 <= i < |rest| ==> idx[i] == rest[i];
        idx
      else
        rest
  }

  /** One of the steps of getDomainStatuses: the status line is appended
      when its flag is set. */
  method AppendIfSet(ret: seq<string>, flag: bool, status: EPPStatus) returns (ret': seq<string>)
    ensures ret' == ret + IfSet(flag, StatusLine(status))
  {
    ret' := ret;
    if flag {
      ret' := ret' + [IcannEPPStatusCodeLink(StatusCode(status))];
    }
  }

  /** getDomainStatuses: the line of each status whose flag is set, in
      table order. */
  method GetDomainStatuses(d: DomainStatusFlags) returns (ret: seq<string>)
    ensures ret == Selected(StatusLines(d))
  {
    ret := [];
    ret := AppendIfSet(ret, d.clientDeleteProhibited, ClientDeleteProhibited);
    ret := AppendIfSet(ret, d.clientHold, ClientHold);
    ret := AppendIfSet(ret, d.clientRenewProhibited, ClientRenewProhibited);
    ret := AppendIfSet(ret, d.clientTransferProhibited, ClientTransferProhibited);
    ret := AppendIfSet(ret, d.clientUpdateProhibited, ClientUpdateProhibited);

    ret := AppendIfSet(ret, d.serverDeleteProhibited, ServerDeleteProhibited);
    ret := AppendIfSet(ret, d.serverHold, ServerHold);
    ret := AppendIfSet(ret, d.serverRenewProhibited, ServerRenewProhibited);
    ret := AppendIfSet(ret, d.serverTransferProhibited, ServerTransferProhibited);
    ret := AppendIfSet(ret, d.serverUpdateProhibited, ServerUpdateProhibited);

    ret := AppendIfSet(ret, d.pendingUpdate, PendingUpdate);
    ret := AppendIfSet(ret, d.pendingTransfer, PendingTransfer);
    ret := AppendIfSet(ret, d.pendingRenew, PendingRenew);
    ret := AppendIfSet(ret, d.pendingDelete, PendingDelete);
    ret := AppendIfSet(ret, d.pendingCreate, PendingCreate);

    ret := AppendIfSet(ret, d.ok, OK);
    StatusLinesSelected(d);
  }

  lemma SelectedSnoc<T>(t: seq<(T, bool)>, e: (T, bool))
    ensures Selected(t + [e]) == Selected(t) + IfSet(e.1, e.0)
  {
    assert (t + [e])[..|t|] == t;
  }

  /** `t + [e]`, with the selection step of SelectedSnoc on record. */
  ghost function Snoced<T>(t: seq<(T, bool)>, e: (T, bool)): (r: seq<(T, bool)>)
    ensures r == t + [e] && Selected(r) == Selected(t) + IfSet(e.1, e.0)
  {
    SelectedSnoc(t, e);
    t + [e]
  }

  /** The status table selected entry by entry. */
  lemma StatusLinesSelected(d: DomainStatusFlags)
    ensures Selected(StatusLines(d)) == [] + IfSet(d.clientDeleteProhibited, StatusLine(ClientDeleteProhibited))
      + IfSet(d.clientHold, StatusLine(ClientHold))
      + IfSet(d.clientRenewProhibited, StatusLine(ClientRenewProhibited))
      + IfSet(d.clientTransferProhibited, StatusLine(ClientTransferProhibited))
      + IfSet(d.clientUpdateProhibited, StatusLine(ClientUpdateProhibited))
      + IfSet(d.serverDeleteProhibited, StatusLine(ServerDeleteProhibited))
      + IfSet(d.serverHold, StatusLine(ServerHold))
      + IfSet(d.serverRenewProhibited, StatusLine(ServerRenewProhibited))
      + IfSet(d.serverTransferProhibited, StatusLine(ServerTransferProhibited))
      + IfSet(d.serverUpdateProhibited, StatusLine(ServerUpdateProhibited))
      + IfSet(d.pendingUpdate, StatusLine(PendingUpdate))
      + IfSet(d.pendingTransfer, StatusLine(PendingTransfer))
      + IfSet(d.pendingRenew, StatusLine(PendingRenew))
      + IfSet(d.pendingDelete, StatusLine(PendingDelete))
      + IfSet(d.pendingCreate, StatusLine(PendingCreate))
      + IfSet(d.ok, StatusLine(OK))
  {
    // The table is built one entry at a time, as the source appends.
    var t: seq<(string, bool)> := [];
    t := Snoced(t, (StatusLine(ClientDeleteProhibited), d.clientDeleteProhibited));
    t := Snoced(t, (StatusLine(ClientHold), d.clientHold));
    t := Snoced(t, (StatusLine(ClientRenewProhibited), d.clientRenewProhibited));
    t := Snoced(t, (StatusLine(ClientTransferProhibited), d.clientTransferProhibited));
    t := Snoced(t, (StatusLine(ClientUpdateProhibited), d.clientUpdateProhibited));
    t := Snoced(t, (StatusLine(ServerDeleteProhibited), d.serverDeleteProhibited));
    t := Snoced(t, (StatusLine(ServerHold), d.serverHold));
    t := Snoced(t, (StatusLine(ServerRenewProhibited), d.serverRenewProhibited));
    t := Snoced(t, (StatusLine(ServerTransferProhibited), d.serverTransferProhibited));
    t := Snoced(t, (StatusLine(ServerUpdateProhibited), d.serverUpdateProhibited));
    t := Snoced(t, (StatusLine(PendingUpdate), d.pendingUpdate));
    t := Snoced(t, (StatusLine(PendingTransfer), d.pendingTransfer));
    t := Snoced(t, (StatusLine(PendingRenew), d.pendingRenew));
    t := Snoced(t, (StatusLine(PendingDelete), d.pendingDelete));
    t := Snoced(t, (StatusLine(PendingCreate), d.pendingCreate));
    t := Snoced(t, (StatusLine(OK), d.ok));
    assert t == StatusLines(d);
  }

  /** Nothing is selected exactly when no flag is set, and a set last
      flag selects its value last. */
  lemma SelectedEnds<T>(t: seq<(T, bool)>)
    ensures Selected(t) == [] <==> forall p :: 0 <= p < |t| ==> !t[p].1
    ensures t != [] && t[|t| - 1].1 ==> Selected(t) != [] && Selected(t)[|Selected(t)| - 1] == t[|t| - 1].0
  {
    var idx := SelectedPositions(t);
    if Selected(t) != [] {
      assert t[idx[0]].1;
    }
  }

  /** A domain with no status flags set shows no status lines, and one
      that is ok shows the ok line last. */
  lemma DomainStatusesShape(d: DomainStatusFlags)
    ensures Selected(StatusLines(d)) == [] <==> d == DomainStatusFlags(false, false, false, false, false, false, false, false, false, false, false, false, false, false, false, false)
    ensures d.ok ==> Selected(StatusLines(d))[|Selected(StatusLines(d))| - 1] == StatusLine(OK)
  {
    StatusLinesSelected(d);
  }

  // ---------------------------------------------------------------------
  // dictify

  /** A template argument: a string, or a value of some other type. */
  datatype Arg<T> = StrArg(s: string) | OtherArg(v: T)

  const ErrInvalidDictCall := "invalid dict call"
  const ErrDictKeysNotStrings := "dict keys must be strings"

  /** Every argument in a key position is a string. */
  predicate KeysAreStrings<T>(values: seq<Arg<T>>)
  {
    forall i :: 0 <= i < |values| && i % 2 == 0 ==> values[i].StrArg?
  }

  /** The map the key/value pairs make, a later pair for a key replacing an
      earlier one. */
  function DictOf<T>(values: seq<Arg<T>>): map<string, Arg<T>>
    requires |values| % 2 == 0 && KeysAreStrings(values)
    decreases |values|
  {
    if values == [] then map[]
    else
      var n := |values|;
      assert forall i :: 0 <= i < n - 2 ==> values[..n - 2][i] == values[i];
      DictOf(values[..n - 2])[values[n - 2].s := values[n - 1]]
  }

  /** dictify: an odd number of arguments and a key that is not a string
      are errors; otherwise the pairs make the map. */
  method Dictify<T>(values: seq<Arg<T>>) returns (r: Result<map<string, Arg<T>>>)
    ensures |values| % 2 != 0 ==> r == Err(ErrInvalidDictCall)
    ensures |values| % 2 == 0 && !KeysAreStrings(values) ==> r == Err(ErrDictKeysNotStrings)
    ensures |values| % 2 == 0 && KeysAreStrings(values) ==> r == Ok(DictOf(values))
  {
    if |values| % 2 != 0 {
      return Err(ErrInvalidDictCall);
    }
    var dict: map<string, Arg<T>> := map[];
    var i := 0;
    while i < |values|
      invariant 0 <= i <= |values| && i % 2 == 0
      invariant KeysAreStrings(values[..i])
      invariant dict == DictOf(values[..i])
    {
      if !values[i].StrArg? {
        return Err(ErrDictKeysNotStrings);
      }
      assert values[..i + 2][..i] == values[..i];
      assert forall j :: 0 <= j < i + 2 ==> values[..i + 2][j] == values[j];
      dict := dict[values[i].s := values[i + 1]];
      i := i + 2;
    }
    assert values[..i] == values;
    return Ok(dict);
  }

  /** The strings in key positions. */
  function KeyStrings<T>(values: seq<Arg<T>>): set<string>
  {
    set i | 0 <= i < |values| && i % 2 == 0 && values[i].StrArg? :: values[i].s
  }

  /** values[i] is the last key position holding `key`. */
  predicate LastKeyAt<T>(values: seq<Arg<T>>, key: string, i: int)
  {
    0 <= i < |values| - 1 && i % 2 == 0 && values[i] == StrArg(key)
    && forall j :: i < j < |values| && j % 2 == 0 ==> values[j] != StrArg(key)
  }

  /** The map has a key for each string in a key position and no other. */
  lemma {:induction false} DictKeys<T>(values: seq<Arg<T>>)
    requires |values| % 2 == 0 && KeysAreStrings(values)
    ensures DictOf(values).Keys == KeyStrings(values)
    decreases |values|
  {
    if values != [] {
      var n := |values|;
      var init := values[..n - 2];
      assert forall i :: 0 <= i < n - 2 ==> init[i] == values[i];
      DictKeys(init);
      assert KeyStrings(values) == KeyStrings(init) + {values[n - 2].s};
    }
  }

  /** Each key maps to the value that follows its last occurrence. */
  lemma {:induction false} DictLatest<T>(values: seq<Arg<T>>, key: string)
    requires |values| % 2 == 0 && KeysAreStrings(values)
    requires key in DictOf(values)
    ensures exists i :: LastKeyAt(values, key, i) && DictOf(values)[key] == values[i + 1]
    decreases |values|
  {
    var n := |values|;
    var init := values[..n - 2];
    assert forall i :: 0 <= i < n - 2 ==> init[i] == values[i];
    if values[n - 2].s == key {
      assert LastKeyAt(values, key, n - 2);
    } else {
      DictLatest(init, key);
      var i :| LastKeyAt(init, key, i) && DictOf(init)[key] == init[i + 1];
      assert LastKeyAt(values, key, i) && DictOf(values)[key] == values[i + 1];
    }
  }

  // ---------------------------------------------------------------------
  // ExpandPath

  const ErrNoPathSet := "No Path Set"

  /** ExpandPath: `wd` and `wdErr` are what os.Getwd returned. The empty path
      is an error, a path starting with '/' is kept, and any other is
      joined onto the working directory, with the working directory's error
      passed on. */
  function ExpandPath(filePath: string, wd: string, wdErr: Option<string>): (r: (string, Option<string>))
    ensures filePath == "" ==> r == ("", Some(ErrNoPathSet))
    ensures filePath != "" && filePath[0] == '/' ==> r == (filePath, None)
    ensures filePath != "" && filePath[0] != '/' ==> r.1 == wdErr
    ensures filePath != "" && filePath[0] != '/' && wd != "" ==> HasPrefix(r.0, wd + "/") && r.0[|wd| + 1..] == filePath
  {
    if |filePath| > 0 then
      if filePath[0] == '/' then (filePath, None)
      else (PathJoin(wd, filePath), wdErr)
    else ("", Some(ErrNoPathSet))
  }

  /** Once expanded against an absolute working directory, a path is
      absolute, and expanding it again changes nothing. */
  lemma ExpandPathIdempotent(filePath: string, wd: string, wdErr: Option<string>, wd2: string, wdErr2: Option<string>)
    requires filePath != "" && wd != "" && wd[0] == '/'
    ensures var p := ExpandPath(filePath, wd, wdErr).0;
      p != "" && p[0] == '/' && ExpandPath(p, wd2, wdErr2) == (p, None)
  {
  }
}
