// The host revision's form codec for host addresses ("v4-<ip>",
// "v6-<ip>"), the address-list comparison, the IP preview and the
// per-state action menu.
module HostRevision {
  import opened Common
  import opened RegistrarObject
  import Browser

  const ErrUnableToParseHostAddress := "unable to parse Host Address"

  /** A host address as a value. */
  datatype HostAddressData = HostAddressData(id: int, hostRevisionID: int, ipAddress: string, protocol: int)

  /** The protocol a form value's first token names, if any. */
  function ProtocolOf(token: string): Option<int>
  {
    if token == "v4" then Some(4) else if token == "v6" then Some(6) else None
  }

  /** The result of ParseFromFormValue in a fresh HostAddress: two
      '-'-separated tokens, a protocol tag, and an address the resolver
      (`resolves`, standing for net.ResolveIPAddr) accepts. The tag is
      never compared with the kind of the address. */
  function ParseHostForm(input: string, resolves: string -> bool): (r: Result<HostAddressData>)
    ensures r.Ok? <==> |Split(input, '-')| == 2 && ProtocolOf(Split(input, '-')[0]).Some?
                       && resolves(Split(input, '-')[1])
    ensures r.Ok? ==> r.value == HostAddressData(0, 0, Split(input, '-')[1], ProtocolOf(Split(input, '-')[0]).value)
    ensures r.Err? ==> r.msg == ErrUnableToParseHostAddress
  {
    var t := Split(input, '-');
    if |t| != 2 then Err(ErrUnableToParseHostAddress)
    else if t[0] == "v4" then
      if resolves(t[1]) then Ok(HostAddressData(0, 0, t[1], 4)) else Err(ErrUnableToParseHostAddress)
    else if t[0] == "v6" then
      if resolves(t[1]) then Ok(HostAddressData(0, 0, t[1], 6)) else Err(ErrUnableToParseHostAddress)
    else Err(ErrUnableToParseHostAddress)
  }

  /** The receiver after ParseFromFormValue: the protocol is stored before
      the address is checked, the address only on success. */
  function AfterHostParse(prev: HostAddressData, input: string, resolves: string -> bool): HostAddressData
  {
    var t := Split(input, '-');
    if |t| != 2 || ProtocolOf(t[0]).None? then prev
    else if !resolves(t[1]) then prev.(protocol := ProtocolOf(t[0]).value)
    else prev.(protocol := ProtocolOf(t[0]).value, ipAddress := t[1])
  }

  class HostAddress {
    var id: int
    var hostRevisionID: int
    var ipAddress: string
    var protocol: int

    constructor()
      ensures Fields() == HostAddressData(0, 0, "", 0)
    {
      id, hostRevisionID, ipAddress, protocol := 0, 0, "", 0;
    }

    function Fields(): HostAddressData
      reads this
    {
      HostAddressData(id, hostRevisionID, ipAddress, protocol)
    }

    method ParseFromFormValue(input: string, resolves: string -> bool) returns (err: Option<string>)
      modifies this
      ensures err.None? <==> ParseHostForm(input, resolves).Ok?
      ensures err.Some? ==> err.value == ErrUnableToParseHostAddress
      ensures Fields() == AfterHostParse(old(Fields()), input, resolves)
    {
      var tokens := Split(input, '-');
      if |tokens| == 2 {
        if tokens[0] == "v4" {
          protocol := 4;
        } else if tokens[0] == "v6" {
          protocol := 6;
        } else {
          return Some(ErrUnableToParseHostAddress);
        }
        if !resolves(tokens[1]) {
          return Some(ErrUnableToParseHostAddress);
        }
        ipAddress := tokens[1];
      } else {
        return Some(ErrUnableToParseHostAddress);
      }
      return None;
    }
  }

  /** On success the receiver holds the parsed address whatever it held
      before (only its IDs are kept); on a failed address check the
      protocol has nevertheless been overwritten. */
  lemma AfterHostParseOutcome(prev: HostAddressData, input: string, resolves: string -> bool)
    ensures ParseHostForm(input, resolves).Ok? ==>
      AfterHostParse(prev, input, resolves)
        == ParseHostForm(input, resolves).value.(id := prev.id, hostRevisionID := prev.hostRevisionID)
    ensures var t := Split(input, '-');
      |t| == 2 && ProtocolOf(t[0]).Some? && !resolves(t[1]) ==>
        ParseHostForm(input, resolves).Err?
        && AfterHostParse(prev, input, resolves) == prev.(protocol := ProtocolOf(t[0]).value)
  {
  }

  /** FormValue: "v%d-%s". */
  function FormValue(h: HostAddressData): string
  {
    "v" + IntToString(h.protocol) + "-" + h.ipAddress
  }

  /** DisplayName: "%s - IPv%d". */
  function DisplayName(h: HostAddressData): string
  {
    h.ipAddress + " - IPv" + IntToString(h.protocol)
  }

  /** FormDivName: "host_address_v<p>-" and the address with '.' written
      'G' and ':' written 'S', for protocols 4 and 6 only. */
  function FormDivName(h: HostAddressData): string
  {
    if h.protocol == 4 || h.protocol == 6 then
      "host_address_v" + IntToString(h.protocol) + "-" + ReplaceChar(ReplaceChar(h.ipAddress, '.', 'G'), ':', 'S')
    else ""
  }

  /** Parsing the form value of an address with protocol 4 or 6 gives it
      back, provided the address has no '-' and resolves. */
  lemma ParseOfFormValue(h: HostAddressData, resolves: string -> bool)
    requires h.protocol == 4 || h.protocol == 6
    requires NoChar(h.ipAddress, '-') && resolves(h.ipAddress)
    ensures ParseHostForm(FormValue(h), resolves) == Ok(h.(id := 0, hostRevisionID := 0))
  {
    var tag := "v" + IntToString(h.protocol);
    assert tag == (if h.protocol == 4 then "v4" else "v6");
    assert FormValue(h) == tag + ['-'] + h.ipAddress;
    SplitCons(tag, h.ipAddress, '-');
    SplitNoSeparator(h.ipAddress, '-');
  }

  /** A successful parse, formatted again, is the text that was parsed. */
  lemma FormValueOfParse(input: string, resolves: string -> bool)
    requires ParseHostForm(input, resolves).Ok?
    ensures FormValue(ParseHostForm(input, resolves).value) == input
  {
    var t := Split(input, '-');
    JoinSplit(input, '-');
    Join2(t[0], t[1], '-');
    assert t == [t[0], t[1]];
    var h := ParseHostForm(input, resolves).value;
    assert "v" + IntToString(h.protocol) == t[0];
  }

  /** The server's identities are the ones the browser builds for the same
      address under the protocol title "v4" or "v6": the row id, the
      hidden value and the row title. */
  lemma IdentityAgreesWithBrowser(h: HostAddressData)
    requires h.protocol == 4 || h.protocol == 6
    ensures var title := "v" + IntToString(h.protocol);
      FormDivName(h) == Browser.HostRowId(title, h.ipAddress)
      && FormValue(h) == Browser.HostValue(title, h.ipAddress)
      && DisplayName(h) == Browser.HostTitle(h.ipAddress, title)
  {
  }

  /** Only protocols 4 and 6 have a div name. */
  lemma DivNameOnlyForKnownProtocols(h: HostAddressData)
    ensures FormDivName(h) != "" <==> h.protocol == 4 || h.protocol == 6
  {
  }

  // ---------------------------------------------------------------------
  // ParseHostAddresses

  function AcceptedHosts(values: seq<string>, resolves: string -> bool): seq<HostAddressData>
  {
    if values == [] then []
    else
      var last := values[|values| - 1];
      AcceptedHosts(values[..|values| - 1], resolves)
        + (if ParseHostForm(last, resolves).Ok? then [ParseHostForm(last, resolves).value] else [])
  }

  /** The error for each rejected value names the value. */
  function RejectedHosts(values: seq<string>, resolves: string -> bool): seq<string>
  {
    if values == [] then []
    else
      var last := values[|values| - 1];
      RejectedHosts(values[..|values| - 1], resolves)
        + (if ParseHostForm(last, resolves).Ok? then [] else ["unable to parse host address " + last])
  }

  /** ParseHostAddresses: parses each form value into a fresh HostAddress;
      accepted addresses are collected, each rejected one gives an error. */
  method ParseHostAddresses(values: seq<string>, resolves: string -> bool)
    returns (hosts: seq<HostAddressData>, errs: seq<string>)
    ensures hosts == AcceptedHosts(values, resolves)
    ensures errs == RejectedHosts(values, resolves)
  {
    hosts, errs := [], [];
    var i := 0;
    while i < |values|
      invariant 0 <= i <= |values|
      invariant hosts == AcceptedHosts(values[..i], resolves)
      invariant errs == RejectedHosts(values[..i], resolves)
    {
      var host := new HostAddress();
      var err := host.ParseFromFormValue(values[i], resolves);
      assert values[..i + 1][..i] == values[..i];
      if err.Some? {
        errs := errs + ["unable to parse host address " + values[i]];
      } else {
        AfterHostParseOutcome(HostAddressData(0, 0, "", 0), values[i], resolves);
        hosts := hosts + [host.Fields()];
      }
      i := i + 1;
    }
    assert values[..i] == values;
  }

  /** The accepted addresses keep the input order: parsing a concatenation
      concatenates the results, and every value yields an address or an
      error. */
  lemma {:induction false} ParseHostListsAppend(a: seq<string>, b: seq<string>, resolves: string -> bool)
    ensures AcceptedHosts(a + b, resolves) == AcceptedHosts(a, resolves) + AcceptedHosts(b, resolves)
    ensures RejectedHosts(a + b, resolves) == RejectedHosts(a, resolves) + RejectedHosts(b, resolves)
    decreases |b|
  {
    if b == [] {
      assert a + b == a;
    } else {
      var b' := b[..|b| - 1];
      ParseHostListsAppend(a, b', resolves);
      assert (a + b)[..|a + b| - 1] == a + b';
      assert (a + b)[|a + b| - 1] == b[|b| - 1];
    }
  }

  lemma {:induction false} ParseHostListsAccount(values: seq<string>, resolves: string -> bool)
    ensures |AcceptedHosts(values, resolves)| + |RejectedHosts(values, resolves)| == |values|
    ensures forall k :: 0 <= k < |AcceptedHosts(values, resolves)| ==>
      var h := AcceptedHosts(values, resolves)[k];
      (h.protocol == 4 || h.protocol == 6) && resolves(h.ipAddress)
  {
    if values != [] {
      ParseHostListsAccount(values[..|values| - 1], resolves);
    }
  }

  // ---------------------------------------------------------------------
  // CompareHostAddressLists

  function HostIds(hs: seq<HostAddressData>): (r: seq<int>)
    ensures |r| == |hs| && forall k :: 0 <= k < |hs| ==> r[k] == hs[k].id
  {
    seq(|hs|, k requires 0 <= k < |hs| => hs[k].id)
  }

  /** CompareHostAddressLists: equal counts, and every ID of each list
      occurs in the other. */
  method CompareHostAddressLists(halr: seq<HostAddressData>, halre: seq<HostAddressData>) returns (r: bool)
    ensures r <==> SameIdLists(HostIds(halr), HostIds(halre))
  {
    r := CompareIdLists(HostIds(halr), HostIds(halre));
  }

  // ---------------------------------------------------------------------
  // The revision record

  /** A host revision: its state, its addresses and the six prohibited
      flags the registrar expects the registry to hold. */
  datatype HostRevisionRecord = HostRevisionRecord(id: int, hostID: int, revisionState: string,
                                                   hostAddresses: seq<HostAddressData>,
                                                   clientDeleteProhibited: bool, serverDeleteProhibited: bool,
                                                   clientTransferProhibited: bool, serverTransferProhibited: bool,
                                                   clientUpdateProhibited: bool, serverUpdateProhibited: bool)

  function IPsOf(hs: seq<HostAddressData>): (r: seq<string>)
    ensures |r| == |hs| && forall k :: 0 <= k < |hs| ==> r[k] == hs[k].ipAddress
  {
    seq(|hs|, k requires 0 <= k < |hs| => hs[k].ipAddress)
  }

  /** GetPreviewIPs: each address followed by a newline, in order. */
  method GetPreviewIPs(h: HostRevisionRecord) returns (ret: string)
    ensures ret == Lines(IPsOf(h.hostAddresses))
  {
    ret := "";
    var i := 0;
    while i < |h.hostAddresses|
      invariant 0 <= i <= |h.hostAddresses|
      invariant ret == Lines(IPsOf(h.hostAddresses[..i]))
    {
      assert IPsOf(h.hostAddresses[..i + 1])[..i] == IPsOf(h.hostAddresses[..i]);
      ret := ret + h.hostAddresses[i].ipAddress + "\n";
      i := i + 1;
    }
    assert h.hostAddresses[..i] == h.hostAddresses;
  }

  /** GetActions: the shared revision menu with "Host" as the parent. */
  method GetActions(h: HostRevisionRecord, isSelf: bool) returns (ret: map<string, string>)
    ensures RevisionMenu(ret, HostRevisionType, HostType, "Host", h.id, h.hostID, h.revisionState, isSelf)
    ensures |ret| == RevisionActionCount(h.revisionState, isSelf)
  {
    ret := RevisionActions(HostRevisionType, HostType, "Host", h.id, h.hostID, h.revisionState, isSelf);
  }

  predicate IsCancelled(h: HostRevisionRecord) { h.revisionState == StateCancelled }

  predicate IsEditable(h: HostRevisionRecord) { h.revisionState == StateNew }
}
