// The registrar's host object (lib/host.go): reconciling a host with the
// registry's info response (the IP-list diff and the provisioning
// verdict), the hold status, the host-address formatters, host-list
// parsing and the export-list comparisons.
//
// IP addresses are compared the way net.ParseIP(a).Equal(net.ParseIP(b))
// compares them: `parseIP` stands for net.ParseIP and gives the bytes of
// an address, or [] (Go's nil) for a text that is not one.

module Host {
  import opened Common
  import opened EppBase
  import EppResponse
  import HostRevision

  // ---------------------------------------------------------------------
  // IP equality and DiffIPLists

  /** `x` equals, as an IP address, some element of `ys`. */
  predicate HasEqual(x: string, ys: seq<string>, parseIP: string -> seq<int>)
  {
    exists j :: 0 <= j < |ys| && parseIP(x) == parseIP(ys[j])
  }

  /** The elements of `xs` equal to no element of `ys`, in their order in `xs`. */
  function Unmatched(xs: seq<string>, ys: seq<string>, parseIP: string -> seq<int>): seq<string>
  {
    if xs == [] then []
    else
      var last := xs[|xs| - 1];
      Unmatched(xs[..|xs| - 1], ys, parseIP) + (if HasEqual(last, ys, parseIP) then [] else [last])
  }

  /** The (add, remove) pair that makes `current` match `expected`. */
  function IPDiff(current: seq<string>, expected: seq<string>, parseIP: string -> seq<int>): (seq<string>, seq<string>)
  {
    (Unmatched(expected, current, parseIP), Unmatched(current, expected, parseIP))
  }

  /** The inner loop of DiffIPLists: scan `ys` for an address equal to `x`, stopping at the first. */
  method FindEqual(x: string, ys: seq<string>, parseIP: string -> seq<int>) returns (found: bool)
    ensures found <==> HasEqual(x, ys, parseIP)
  {
    found := false;
    var j := 0;
    while j < |ys|
      invariant 0 <= j <= |ys|
      invariant forall k :: 0 <= k < j ==> parseIP(x) != parseIP(ys[k])
    {
      if parseIP(x) == parseIP(ys[j]) {
        found := true;
        break;
      }
      j := j + 1;
    }
  }

  /**
   * DiffIPLists: `remove` holds the current addresses that are expected
   * nowhere and `add` the expected addresses that are current nowhere,
   * each in its list's order.
   */
  method DiffIPLists(currentList: seq<string>, expectedList: seq<string>, parseIP: string -> seq<int>)
    returns (add: seq<string>, remove: seq<string>)
    ensures (add, remove) == IPDiff(currentList, expectedList, parseIP)
  {
    remove := [];
    for i := 0 to |currentList|
      invariant remove == Unmatched(currentList[..i], expectedList, parseIP)
    {
      var found := FindEqual(currentList[i], expectedList, parseIP);
      assert currentList[..i + 1][..i] == currentList[..i];
      if !found {
        remove := remove + [currentList[i]];
      }
    }
    assert currentList[..|currentList|] == currentList;
    add := [];
    for i := 0 to |expectedList|
      invariant add == Unmatched(expectedList[..i], currentList, parseIP)
    {
      var found := FindEqual(expectedList[i], currentList, parseIP);
      assert expectedList[..i + 1][..i] == expectedList[..i];
      if !found {
        add := add + [expectedList[i]];
      }
    }
    assert expectedList[..|expectedList|] == expectedList;
  }

  /** An element is left unmatched exactly when it is in `xs` and equals nothing in `ys`. */
  lemma {:induction false} UnmatchedMembers(xs: seq<string>, ys: seq<string>, parseIP: string -> seq<int>)
    ensures |Unmatched(xs, ys, parseIP)| <= |xs|
    ensures forall x :: x in Unmatched(xs, ys, parseIP) <==> x in xs && !HasEqual(x, ys, parseIP)
  {
    if xs != [] {
      var init := xs[..|xs| - 1];
      UnmatchedMembers(init, ys, parseIP);
      assert xs == init + [xs[|xs| - 1]];
    }
  }

  /** Nothing is left unmatched exactly when every element has an equal in `ys`. */
  lemma {:induction false} UnmatchedEmpty(xs: seq<string>, ys: seq<string>, parseIP: string -> seq<int>)
    ensures Unmatched(xs, ys, parseIP) == [] <==> forall i :: 0 <= i < |xs| ==> HasEqual(xs[i], ys, parseIP)
  {
    UnmatchedMembers(xs, ys, parseIP);
    if Unmatched(xs, ys, parseIP) != [] {
      var x := Unmatched(xs, ys, parseIP)[0];
      assert x in Unmatched(xs, ys, parseIP);
      var i :| 0 <= i < |xs| && xs[i] == x;
    } else {
      forall i | 0 <= i < |xs|
        ensures HasEqual(xs[i], ys, parseIP)
      {
        assert xs[i] in xs;
      }
    }
  }

  /** Diffing a list against itself, in either order, changes nothing. */
  lemma DiffSelfEmpty(xs: seq<string>, parseIP: string -> seq<int>)
    ensures IPDiff(xs, xs, parseIP) == ([], [])
  {
    forall i | 0 <= i < |xs|
      ensures HasEqual(xs[i], xs, parseIP)
    {
      assert parseIP(xs[i]) == parseIP(xs[i]);
    }
    UnmatchedEmpty(xs, xs, parseIP);
  }

  /** Swapping the two lists swaps the additions and the removals. */
  lemma DiffSwap(a: seq<string>, b: seq<string>, parseIP: string -> seq<int>)
    ensures IPDiff(b, a, parseIP) == (IPDiff(a, b, parseIP).1, IPDiff(a, b, parseIP).0)
  {
  }

  /** The addresses a list denotes. */
  function AddressSet(xs: seq<string>, parseIP: string -> seq<int>): set<seq<int>>
  {
    set i | 0 <= i < |xs| :: parseIP(xs[i])
  }

  /** Both halves of the diff are empty exactly when the lists denote the same addresses. */
  lemma DiffEmptyIffSameAddresses(xs: seq<string>, ys: seq<string>, parseIP: string -> seq<int>)
    ensures IPDiff(xs, ys, parseIP) == ([], []) <==> AddressSet(xs, parseIP) == AddressSet(ys, parseIP)
  {
    UnmatchedEmpty(xs, ys, parseIP);
    UnmatchedEmpty(ys, xs, parseIP);
    if AddressSet(xs, parseIP) == AddressSet(ys, parseIP) {
      forall i | 0 <= i < |xs|
        ensures HasEqual(xs[i], ys, parseIP)
      {
        assert parseIP(xs[i]) in AddressSet(ys, parseIP);
      }
      forall i | 0 <= i < |ys|
        ensures HasEqual(ys[i], xs, parseIP)
      {
        assert parseIP(ys[i]) in AddressSet(xs, parseIP);
      }
    }
    if IPDiff(xs, ys, parseIP) == ([], []) {
      forall a | a in AddressSet(xs, parseIP)
        ensures a in AddressSet(ys, parseIP)
      {
        var i :| 0 <= i < |xs| && parseIP(xs[i]) == a;
        assert HasEqual(xs[i], ys, parseIP);
      }
      forall a | a in AddressSet(ys, parseIP)
        ensures a in AddressSet(xs, parseIP)
      {
        var i :| 0 <= i < |ys| && parseIP(ys[i]) == a;
        assert HasEqual(ys[i], xs, parseIP);
      }
    }
  }

  /** Two texts that are not addresses compare as equal addresses (both parse to nil). */
  lemma UnparsableAddressesMatch(a: string, b: string, parseIP: string -> seq<int>)
    requires parseIP(a) == [] && parseIP(b) == []
    ensures IPDiff([a], [b], parseIP) == ([], [])
  {
    assert [b][0] == b && [a][0] == a;
    assert HasEqual(a, [b], parseIP) && HasEqual(b, [a], parseIP);
    assert [a][..0] == [] && [b][..0] == [];
    assert Unmatched([a], [b], parseIP) == Unmatched([], [b], parseIP) + [];
    assert Unmatched([b], [a], parseIP) == Unmatched([], [a], parseIP) + [];
  }

  // ---------------------------------------------------------------------
  // DiffIPsExport

  const ErrHostInfoEmpty: string := "Host info section of registry response is empty"
  const IPVersion4Int: int := 4
  const IPVersion6Int: int := 6

  /** The registry's addresses of one IP version, in order. */
  function OfVersion(addrs: seq<HostAddress>, version: string): seq<string>
  {
    if addrs == [] then []
    else
      var last := addrs[|addrs| - 1];
      OfVersion(addrs[..|addrs| - 1], version) + (if last.ipVersion == version then [last.address] else [])
  }

  /** The registrar's addresses of one protocol, in order. */
  function OfProtocol(hs: seq<HostRevision.HostAddressData>, protocol: int): seq<string>
  {
    if hs == [] then []
    else
      var last := hs[|hs| - 1];
      OfProtocol(hs[..|hs| - 1], protocol) + (if last.protocol == protocol then [last.ipAddress] else [])
  }

  lemma {:induction false} OfVersionMembers(addrs: seq<HostAddress>, version: string)
    ensures forall x :: x in OfVersion(addrs, version) <==>
      exists k :: 0 <= k < |addrs| && addrs[k].ipVersion == version && addrs[k].address == x
  {
    if addrs != [] {
      OfVersionMembers(addrs[..|addrs| - 1], version);
      assert forall k :: 0 <= k < |addrs| - 1 ==> addrs[..|addrs| - 1][k] == addrs[k];
    }
  }

  lemma {:induction false} OfProtocolMembers(hs: seq<HostRevision.HostAddressData>, protocol: int)
    ensures forall x :: x in OfProtocol(hs, protocol) <==>
      exists k :: 0 <= k < |hs| && hs[k].protocol == protocol && hs[k].ipAddress == x
  {
    if hs != [] {
      OfProtocolMembers(hs[..|hs| - 1], protocol);
      assert forall k :: 0 <= k < |hs| - 1 ==> hs[..|hs| - 1][k] == hs[k];
    }
  }

  datatype IPChanges = IPChanges(ipv4Add: seq<string>, ipv4Rem: seq<string>, ipv6Add: seq<string>, ipv6Rem: seq<string>)

  /** The host info of a response, when the response carries one. */
  predicate HasHostInfo(resp: Option<EppResponse.Response>)
  {
    resp.Some? && resp.value.resultData.Some? && resp.value.resultData.value.hostInf.Some?
  }

  /** The changes that bring the registry's addresses to the registrar's, per IP version. */
  function ExportChanges(registry: seq<HostAddress>, registrar: seq<HostRevision.HostAddressData>,
                         parseIP: string -> seq<int>): IPChanges
  {
    var v4 := IPDiff(OfVersion(registry, IPv4), OfProtocol(registrar, IPVersion4Int), parseIP);
    var v6 := IPDiff(OfVersion(registry, IPv6), OfProtocol(registrar, IPVersion6Int), parseIP);
    IPChanges(v4.0, v4.1, v6.0, v6.1)
  }

  /**
   * DiffIPsExport: an error without host info; otherwise each IP version
   * is diffed on its own, the registry's addresses grouped by IP version
   * and the registrar's by protocol.
   */
  method DiffIPsExport(registry: Option<EppResponse.Response>, registrar: seq<HostRevision.HostAddressData>,
                       parseIP: string -> seq<int>) returns (r: Result<IPChanges>)
    ensures r.Err? <==> !HasHostInfo(registry)
    ensures r.Err? ==> r.msg == ErrHostInfoEmpty
    ensures r.Ok? ==> r.value == ExportChanges(registry.value.resultData.value.hostInf.value.addresses, registrar, parseIP)
  {
    if !HasHostInfo(registry) {
      return Err(ErrHostInfoEmpty);
    }
    var addrs := registry.value.resultData.value.hostInf.value.addresses;
    var registryV4: seq<string> := [];
    var registryV6: seq<string> := [];
    for i := 0 to |addrs|
      invariant registryV4 == OfVersion(addrs[..i], IPv4) && registryV6 == OfVersion(addrs[..i], IPv6)
    {
      assert addrs[..i + 1][..i] == addrs[..i];
      if addrs[i].ipVersion == IPv4 {
        registryV4 := registryV4 + [addrs[i].address];
      } else if addrs[i].ipVersion == IPv6 {
        registryV6 := registryV6 + [addrs[i].address];
      }
    }
    assert addrs[..|addrs|] == addrs;
    var registrarV4: seq<string> := [];
    var registrarV6: seq<string> := [];
    for i := 0 to |registrar|
      invariant registrarV4 == OfProtocol(registrar[..i], IPVersion4Int)
      invariant registrarV6 == OfProtocol(registrar[..i], IPVersion6Int)
    {
      assert registrar[..i + 1][..i] == registrar[..i];
      if registrar[i].protocol == IPVersion4Int {
        registrarV4 := registrarV4 + [registrar[i].ipAddress];
      } else if registrar[i].protocol == IPVersion6Int {
        registrarV6 := registrarV6 + [registrar[i].ipAddress];
      }
    }
    assert registrar[..|registrar|] == registrar;
    var v4Add, v4Rem := DiffIPLists(registryV4, registrarV4, parseIP);
    var v6Add, v6Rem := DiffIPLists(registryV6, registrarV6, parseIP);
    r := Ok(IPChanges(v4Add, v4Rem, v6Add, v6Rem));
  }

  /**
   * An IPv4 address is to be added exactly when the registrar holds it
   * under protocol 4 and the registry has no equal IPv4 address, and to be
   * removed exactly when the registry holds it as IPv4 and the registrar
   * has no equal protocol-4 address.
   */
  lemma ExportChangesV4(registry: seq<HostAddress>, registrar: seq<HostRevision.HostAddressData>,
                        parseIP: string -> seq<int>, x: string)
    ensures var c := ExportChanges(registry, registrar, parseIP);
      (x in c.ipv4Add <==>
        (exists k :: 0 <= k < |registrar| && registrar[k].protocol == 4 && registrar[k].ipAddress == x) &&
        !HasEqual(x, OfVersion(registry, IPv4), parseIP)) &&
      (x in c.ipv4Rem <==>
        (exists k :: 0 <= k < |registry| && registry[k].ipVersion == IPv4 && registry[k].address == x) &&
        !HasEqual(x, OfProtocol(registrar, 4), parseIP))
  {
    UnmatchedMembers(OfProtocol(registrar, 4), OfVersion(registry, IPv4), parseIP);
    UnmatchedMembers(OfVersion(registry, IPv4), OfProtocol(registrar, 4), parseIP);
    OfProtocolMembers(registrar, 4);
    OfVersionMembers(registry, IPv4);
  }

  // ---------------------------------------------------------------------
  // The provisioning verdict

  const VerdictInvalid: string := "Invalid EPP Domain Object"
  const VerdictPending: string := "PendingChangeState"
  const VerdictClientFlags: string := "Client Flags Mismatch"
  const VerdictServerFlags: string := "Server Flags Mismatch"
  const VerdictProvisioned: string := "Provisioned"

  predicate AnyPending(statuses: seq<string>)
  {
    StatusPendingCreate in statuses || StatusPendingDelete in statuses ||
    StatusPendingTransfer in statuses || StatusPendingUpdate in statuses
  }

  predicate ClientFlagsMatch(statuses: seq<string>, rev: HostRevision.HostRevisionRecord)
  {
    (StatusClientUpdateProhibited in statuses) == rev.clientUpdateProhibited &&
    (StatusClientTransferProhibited in statuses) == rev.clientTransferProhibited &&
    (StatusClientDeleteProhibited in statuses) == rev.clientDeleteProhibited
  }

  predicate ServerFlagsMatch(statuses: seq<string>, rev: HostRevision.HostRevisionRecord)
  {
    (StatusServerUpdateProhibited in statuses) == rev.serverUpdateProhibited &&
    (StatusServerTransferProhibited in statuses) == rev.serverTransferProhibited &&
    (StatusServerDeleteProhibited in statuses) == rev.serverDeleteProhibited
  }

  function RegistryIPs(addrs: seq<HostAddress>): (r: seq<string>)
    ensures |r| == |addrs| && forall k :: 0 <= k < |addrs| ==> r[k] == addrs[k].address
  {
    seq(|addrs|, k requires 0 <= k < |addrs| => addrs[k].address)
  }

  /**
   * The verdict on a host against the registry's info response: an
   * incomplete response, then a pending state, then the client flags, then
   * the server flags, then the first missing and the first additional
   * address; "Provisioned" when nothing differs.
   */
  function Verdict(rev: HostRevision.HostRevisionRecord, resp: Option<EppResponse.Response>,
                   parseIP: string -> seq<int>): (bool, string)
  {
    if !HasHostInfo(resp) then (false, VerdictInvalid)
    else
      var inf := resp.value.resultData.value.hostInf.value;
      if AnyPending(inf.status) then (false, VerdictPending)
      else if !ClientFlagsMatch(inf.status, rev) then (false, VerdictClientFlags)
      else if !ServerFlagsMatch(inf.status, rev) then (false, VerdictServerFlags)
      else
        var diff := IPDiff(RegistryIPs(inf.addresses), HostRevision.IPsOf(rev.hostAddresses), parseIP);
        if diff.0 != [] then (false, "Missing Host: " + diff.0[0])
        else if diff.1 != [] then (false, "Additional Host: " + diff.1[0])
        else (true, VerdictProvisioned)
  }

  /**
   * A host is reported provisioned exactly when the response is complete,
   * nothing is pending, all six flags agree and both sides hold the same
   * addresses; the message is "Provisioned" exactly then, and a pending
   * state is reported whatever the flags.
   */
  lemma VerdictProvisionedIff(rev: HostRevision.HostRevisionRecord, resp: Option<EppResponse.Response>,
                              parseIP: string -> seq<int>)
    ensures Verdict(rev, resp, parseIP).0 <==>
      HasHostInfo(resp) &&
      !AnyPending(resp.value.resultData.value.hostInf.value.status) &&
      ClientFlagsMatch(resp.value.resultData.value.hostInf.value.status, rev) &&
      ServerFlagsMatch(resp.value.resultData.value.hostInf.value.status, rev) &&
      AddressSet(RegistryIPs(resp.value.resultData.value.hostInf.value.addresses), parseIP) ==
        AddressSet(HostRevision.IPsOf(rev.hostAddresses), parseIP)
    ensures Verdict(rev, resp, parseIP).0 <==> Verdict(rev, resp, parseIP).1 == VerdictProvisioned
    ensures HasHostInfo(resp) && AnyPending(resp.value.resultData.value.hostInf.value.status) ==>
      Verdict(rev, resp, parseIP).1 == VerdictPending
  {
    if HasHostInfo(resp) {
      var inf := resp.value.resultData.value.hostInf.value;
      DiffEmptyIffSameAddresses(RegistryIPs(inf.addresses), HostRevision.IPsOf(rev.hostAddresses), parseIP);
      var diff := IPDiff(RegistryIPs(inf.addresses), HostRevision.IPsOf(rev.hostAddresses), parseIP);
      if diff.0 != [] {
        assert ("Missing Host: " + diff.0[0])[0] == 'M';
      } else if diff.1 != [] {
        assert ("Additional Host: " + diff.1[0])[0] == 'A';
      }
    }
  }

  /** The ten status flags the verdict loop collects. */
  datatype StatusFlags = StatusFlags(
    pendingCreate: bool, pendingDelete: bool, pendingTransfer: bool, pendingUpdate: bool,
    clientUpdate: bool, serverUpdate: bool, clientTransfer: bool, serverTransfer: bool,
    clientDelete: bool, serverDelete: bool)

  /** Each flag is set exactly when its status value occurs. */
  predicate FlagsFor(f: StatusFlags, statuses: seq<string>)
  {
    (f.pendingCreate <==> StatusPendingCreate in statuses) &&
    (f.pendingDelete <==> StatusPendingDelete in statuses) &&
    (f.pendingTransfer <==> StatusPendingTransfer in statuses) &&
    (f.pendingUpdate <==> StatusPendingUpdate in statuses) &&
    (f.clientUpdate <==> StatusClientUpdateProhibited in statuses) &&
    (f.serverUpdate <==> StatusServerUpdateProhibited in statuses) &&
    (f.clientTransfer <==> StatusClientTransferProhibited in statuses) &&
    (f.serverTransfer <==> StatusServerTransferProhibited in statuses) &&
    (f.clientDelete <==> StatusClientDeleteProhibited in statuses) &&
    (f.serverDelete <==> StatusServerDeleteProhibited in statuses)
  }

  /** The switch over one status value; its cases are distinct values,
      so each flag is set by its own status and by nothing else. */
  function SetFlag(f: StatusFlags, status: string): StatusFlags
  {
    StatusFlags(
      f.pendingCreate || status == StatusPendingCreate,
      f.pendingDelete || status == StatusPendingDelete,
      f.pendingTransfer || status == StatusPendingTransfer,
      f.pendingUpdate || status == StatusPendingUpdate,
      f.clientUpdate || status == StatusClientUpdateProhibited,
      f.serverUpdate || status == StatusServerUpdateProhibited,
      f.clientTransfer || status == StatusClientTransferProhibited,
      f.serverTransfer || status == StatusServerTransferProhibited,
      f.clientDelete || status == StatusClientDeleteProhibited,
      f.serverDelete || status == StatusServerDeleteProhibited)
  }

  lemma SetFlagStep(f: StatusFlags, s: seq<string>, t: string)
    requires FlagsFor(f, s)
    ensures FlagsFor(SetFlag(f, t), s + [t])
  {
    assert forall x :: x in s + [t] <==> x in s || x == t;
  }

  /** The flags the status loop collects decide the pending and flag checks. */
  lemma FlagsDecide(f: StatusFlags, statuses: seq<string>, rev: HostRevision.HostRevisionRecord)
    requires FlagsFor(f, statuses)
    ensures (f.pendingCreate || f.pendingDelete || f.pendingTransfer || f.pendingUpdate) == AnyPending(statuses)
    ensures (f.clientUpdate == rev.clientUpdateProhibited && f.clientTransfer == rev.clientTransferProhibited &&
             f.clientDelete == rev.clientDeleteProhibited) == ClientFlagsMatch(statuses, rev)
    ensures (f.serverUpdate == rev.serverUpdateProhibited && f.serverTransfer == rev.serverTransferProhibited &&
             f.serverDelete == rev.serverDeleteProhibited) == ServerFlagsMatch(statuses, rev)
  {
  }

  /** The status loop of EPPMatchesExpected. */
  method CollectFlags(statuses: seq<string>) returns (f: StatusFlags)
    ensures FlagsFor(f, statuses)
  {
    f := StatusFlags(false, false, false, false, false, false, false, false, false, false);
    for i := 0 to |statuses|
      invariant FlagsFor(f, statuses[..i])
    {
      assert statuses[..i + 1] == statuses[..i] + [statuses[i]];
      SetFlagStep(f, statuses[..i], statuses[i]);
      f := SetFlag(f, statuses[i]);
    }
    assert statuses[..|statuses|] == statuses;
  }

  /** The loop of EPPMatchesExpected over the revision's addresses. */
  method CollectRevisionIPs(addrs: seq<HostRevision.HostAddressData>) returns (ips: seq<string>)
    ensures ips == HostRevision.IPsOf(addrs)
  {
    ips := [];
    for i := 0 to |addrs|
      invariant ips == HostRevision.IPsOf(addrs[..i])
    {
      ips := ips + [addrs[i].ipAddress];
    }
    assert addrs[..|addrs|] == addrs;
  }

  /** The loop of EPPMatchesExpected over the registry's addresses. */
  method CollectRegistryIPs(addrs: seq<HostAddress>) returns (ips: seq<string>)
    ensures ips == RegistryIPs(addrs)
  {
    ips := [];
    for i := 0 to |addrs|
      invariant ips == RegistryIPs(addrs[..i])
    {
      ips := ips + [addrs[i].address];
    }
    assert addrs[..|addrs|] == addrs;
  }

  // ---------------------------------------------------------------------
  // The host object

  const ErrHoldReasonRequired: string := "a hold reason must be set"

  /** A registrar host: its identity, current revision and hold state (times in Unix seconds). */
  class Host {
    const id: int
    var hostName: string
    var currentRevision: HostRevision.HostRevisionRecord
    var holdActive: bool
    var holdBy: string
    var holdAt: int
    var holdReason: string

    /** A held host has a reason; a released one has no reason, holder or time. */
    predicate HoldConsistent()
      reads this
    {
      (holdActive ==> holdReason != "") && (!holdActive ==> holdReason == "" && holdBy == "" && holdAt == 0)
    }

    constructor (id: int, hostName: string, currentRevision: HostRevision.HostRevisionRecord)
      ensures this.id == id && this.hostName == hostName && this.currentRevision == currentRevision
      ensures !holdActive && HoldConsistent()
    {
      this.id := id;
      this.hostName := hostName;
      this.currentRevision := currentRevision;
      holdActive := false;
      holdBy := "";
      holdAt := 0;
      holdReason := "";
    }

    /**
     * UpdateHoldStatus: releasing clears the hold; holding needs a reason,
     * and without one the host is left as it was and an error returned.
     */
    method UpdateHoldStatus(active: bool, reason: string, holder: string, now: int) returns (err: Option<string>)
      modifies this
      ensures err.Some? <==> active && reason == ""
      ensures err.Some? ==>
        err.value == ErrHoldReasonRequired &&
        holdActive == old(holdActive) && holdBy == old(holdBy) && holdAt == old(holdAt) && holdReason == old(holdReason)
      ensures !active ==> !holdActive && holdReason == "" && holdBy == "" && holdAt == 0
      ensures err.None? && active ==> holdActive && holdBy == holder && holdAt == now && holdReason == reason
      ensures err.None? ==> HoldConsistent()
      ensures hostName == old(hostName) && currentRevision == old(currentRevision)
    {
      if !active {
        holdActive := false;
        holdAt := 0;
        holdReason := "";
        holdBy := "";
      } else {
        if |reason| == 0 {
          return Some(ErrHoldReasonRequired);
        }
        holdActive := true;
        holdAt := now;
        holdBy := holder;
        holdReason := reason;
      }
      return None;
    }

    /** EPPMatchesExpected: the verdict on this host's current revision. */
    method EPPMatchesExpected(resp: Option<EppResponse.Response>, parseIP: string -> seq<int>)
      returns (ok: bool, state: string)
      ensures (ok, state) == Verdict(currentRevision, resp, parseIP)
    {
      if !HasHostInfo(resp) {
        return false, VerdictInvalid;
      }
      var inf := resp.value.resultData.value.hostInf.value;
      var rev := currentRevision;
      var f := CollectFlags(inf.status);
      FlagsDecide(f, inf.status, rev);
      if f.pendingCreate || f.pendingDelete || f.pendingTransfer || f.pendingUpdate {
        return false, VerdictPending;
      }
      if !(f.clientUpdate == rev.clientUpdateProhibited && f.clientTransfer == rev.clientTransferProhibited &&
           f.clientDelete == rev.clientDeleteProhibited) {
        return false, VerdictClientFlags;
      }
      if !(f.serverUpdate == rev.serverUpdateProhibited && f.serverTransfer == rev.serverTransferProhibited &&
           f.serverDelete == rev.serverDeleteProhibited) {
        return false, VerdictServerFlags;
      }
      var revisionIPs := CollectRevisionIPs(rev.hostAddresses);
      var eppIPs := CollectRegistryIPs(inf.addresses);
      var add, remove := DiffIPLists(eppIPs, revisionIPs, parseIP);
      if |add| != 0 {
        return false, "Missing Host: " + add[0];
      }
      if |remove| != 0 {
        return false, "Additional Host: " + remove[0];
      }
      return true, VerdictProvisioned;
    }
  }

  // ---------------------------------------------------------------------
  // HostAddressEpp formatters

  /** A host address as the host object stores it. */
  datatype HostAddressEpp = HostAddressEpp(id: int, hostID: int, ipAddress: string, protocol: int)

  /** DisplayName: "%s - IPv%d". */
  function DisplayName(h: HostAddressEpp): string
  {
    h.ipAddress + " - IPv" + IntToString(h.protocol)
  }

  /** FormValue: "v%d-%s". */
  function FormValue(h: HostAddressEpp): string
  {
    "v" + IntToString(h.protocol) + "-" + h.ipAddress
  }

  /** FormDivName: the row identity for protocols 4 and 6, "" otherwise. */
  function FormDivName(h: HostAddressEpp): string
  {
    if h.protocol == 4 || h.protocol == 6 then
      "host_address_v" + IntToString(h.protocol) + "-" + ReplaceChar(ReplaceChar(h.ipAddress, '.', 'G'), ':', 'S')
    else ""
  }

  /** The revision's address record carrying the same address and protocol. */
  function AsRevisionAddress(h: HostAddressEpp): HostRevision.HostAddressData
  {
    HostRevision.HostAddressData(0, 0, h.ipAddress, h.protocol)
  }

  /**
   * A stored address is written exactly as a revision address, so the
   * revision's form parser reads its form value back, and only protocols
   * 4 and 6 get a div name.
   */
  lemma EppAddressRoundTrip(h: HostAddressEpp, resolves: string -> bool)
    requires h.protocol == 4 || h.protocol == 6
    requires NoChar(h.ipAddress, '-') && resolves(h.ipAddress)
    ensures FormValue(h) == HostRevision.FormValue(AsRevisionAddress(h))
    ensures FormDivName(h) == HostRevision.FormDivName(AsRevisionAddress(h))
    ensures DisplayName(h) == HostRevision.DisplayName(AsRevisionAddress(h))
    ensures HostRevision.ParseHostForm(FormValue(h), resolves) == Ok(AsRevisionAddress(h))
  {
    HostRevision.ParseOfFormValue(AsRevisionAddress(h), resolves);
  }

  lemma EppDivNameOnlyForKnownProtocols(h: HostAddressEpp)
    ensures FormDivName(h) != "" <==> h.protocol == 4 || h.protocol == 6
  {
    HostRevision.DivNameOnlyForKnownProtocols(AsRevisionAddress(h));
  }

  // ---------------------------------------------------------------------
  // ParseHostList

  /** The space-separated tokens of the submitted values, in order. */
  function Tokens(values: seq<string>): seq<string>
  {
    if values == [] then [] else Tokens(values[..|values| - 1]) + Split(values[|values| - 1], ' ')
  }

  /** Progress through the tokens: hosts found, the text of the unparsable
      ones, and the lookup error that stopped the scan, if any. */
  datatype ListScan<H> = ListScan(hosts: seq<H>, unparsable: string, failed: bool, stopped: Option<string>)

  /** The effect of the tokens, scanned in order, on the scan state. */
  function Scan<H>(tokens: seq<string>, lookup: int -> Result<H>): ListScan<H>
  {
    if tokens == [] then ListScan([], "", false, None)
    else
      var s := Scan(tokens[..|tokens| - 1], lookup);
      var t := tokens[|tokens| - 1];
      if s.stopped.Some? then s
      else match ParseInt(t)
        case Some(id) =>
          (match lookup(id)
           case Ok(h) => s.(hosts := s.hosts + [h])
           case Err(e) => s.(stopped := Some(e)))
        case None => s.(failed := true, unparsable := s.unparsable + " " + t)
  }

  function ParseListError(htmlID: string, unparsable: string): string
  {
    "unable to parse the following IDs from " + htmlID + ": " + unparsable
  }

  /**
   * ParseHostList: every token that is not an integer is named in one
   * error, and the hosts found are still returned; a failed lookup ends
   * the scan with that error and no hosts.
   */
  method ParseHostList<H>(values: seq<string>, htmlID: string, lookup: int -> Result<H>)
    returns (hosts: seq<H>, err: Option<string>)
    ensures var s := Scan(Tokens(values), lookup);
      if s.stopped.Some? then hosts == [] && err == s.stopped
      else hosts == s.hosts && (err.Some? <==> s.failed) && (err.Some? ==> err.value == ParseListError(htmlID, s.unparsable))
  {
    var state: ListScan<H> := ListScan([], "", false, None);
    for i := 0 to |values|
      invariant state.stopped.None? && Scan(Tokens(values[..i]), lookup) == state
    {
      TokensAt(values, i);
      state := ScanChunk(Tokens(values[..i]), Split(values[i], ' '), lookup, state);
      if state.stopped.Some? {
        ScanStaysStopped(Tokens(values[..i + 1]), Tokens(values[i + 1..]), lookup);
        return [], state.stopped;
      }
    }
    assert values[..|values|] == values;
    if state.failed {
      err := Some(ParseListError(htmlID, state.unparsable));
    } else {
      err := None;
    }
    hosts := state.hosts;
  }

  /** The inner loop of ParseHostList over the tokens of one value,
      stopping at the first failed lookup. */
  method ScanChunk<H>(ghost before: seq<string>, chunk: seq<string>, lookup: int -> Result<H>, start: ListScan<H>)
    returns (state: ListScan<H>)
    requires start.stopped.None? && Scan(before, lookup) == start
    ensures state == Scan(before + chunk, lookup)
  {
    state := start;
    assert before + chunk[..0] == before;
    for j := 0 to |chunk|
      invariant state.stopped.None? && Scan(before + chunk[..j], lookup) == state
    {
      assert (before + chunk[..j + 1])[..|before + chunk[..j + 1]| - 1] == before + chunk[..j];
      var id := ParseInt(chunk[j]);
      if id.Some? {
        var h := lookup(id.value);
        if h.Err? {
          state := state.(stopped := Some(h.msg));
          StoppedInChunk(before, chunk, j, lookup);
          return;
        }
        state := state.(hosts := state.hosts + [h.value]);
      } else {
        state := state.(failed := true, unparsable := state.unparsable + " " + chunk[j]);
      }
    }
    assert chunk[..|chunk|] == chunk;
  }

  /** A lookup that fails inside a value decides the scan of the whole value. */
  lemma StoppedInChunk<H>(before: seq<string>, chunk: seq<string>, j: int, lookup: int -> Result<H>)
    requires 0 <= j < |chunk| && Scan(before + chunk[..j + 1], lookup).stopped.Some?
    ensures Scan(before + chunk, lookup) == Scan(before + chunk[..j + 1], lookup)
  {
    var a := before + chunk[..j + 1];
    var b := chunk[j + 1..];
    assert before + chunk == a + b by {
      assert chunk == chunk[..j + 1] + b;
    }
    ScanStaysStopped(a, b, lookup);
  }

  /** Once a lookup has failed, later tokens change nothing. */
  lemma {:induction false} ScanStaysStopped<H>(a: seq<string>, b: seq<string>, lookup: int -> Result<H>)
    requires Scan(a, lookup).stopped.Some?
    ensures Scan(a + b, lookup) == Scan(a, lookup)
    decreases |b|
  {
    if b == [] {
      assert a + b == a;
    } else {
      assert (a + b)[..|a + b| - 1] == a + b[..|b| - 1];
      ScanStaysStopped(a, b[..|b| - 1], lookup);
    }
  }

  lemma {:induction false} TokensAppend(a: seq<string>, b: seq<string>)
    ensures Tokens(a + b) == Tokens(a) + Tokens(b)
    decreases |b|
  {
    if b == [] {
      assert a + b == a;
    } else {
      assert (a + b)[..|a + b| - 1] == a + b[..|b| - 1];
      TokensAppend(a, b[..|b| - 1]);
    }
  }

  lemma TokensAt(values: seq<string>, i: int)
    requires 0 <= i < |values|
    ensures Tokens(values) == Tokens(values[..i + 1]) + Tokens(values[i + 1..])
    ensures Tokens(values[..i + 1]) == Tokens(values[..i]) + Split(values[i], ' ')
  {
    var prefix := values[..i + 1];
    assert prefix[..|prefix| - 1] == values[..i] && prefix[|prefix| - 1] == values[i];
    TokensSplitAt(values, i + 1);
  }

  lemma TokensSplitAt(values: seq<string>, n: int)
    requires 0 <= n <= |values|
    ensures Tokens(values) == Tokens(values[..n]) + Tokens(values[n..])
  {
    assert values == values[..n] + values[n..];
    TokensAppend(values[..n], values[n..]);
  }

  /** The integer tokens, in order. */
  function IntTokens(tokens: seq<string>): seq<int>
  {
    if tokens == [] then []
    else
      var t := tokens[|tokens| - 1];
      IntTokens(tokens[..|tokens| - 1]) + (if ParseInt(t).Some? then [ParseInt(t).value] else [])
  }

  /** The tokens that are not integers, in order. */
  function BadTokens(tokens: seq<string>): seq<string>
  {
    if tokens == [] then []
    else
      var t := tokens[|tokens| - 1];
      BadTokens(tokens[..|tokens| - 1]) + (if ParseInt(t).Some? then [] else [t])
  }

  /** Each text preceded by one space, as the error message lists them. */
  function SpaceEach(ts: seq<string>): string
  {
    if ts == [] then "" else SpaceEach(ts[..|ts| - 1]) + " " + ts[|ts| - 1]
  }

  /** Every integer token of the list is found by the lookup. */
  predicate LookupsSucceed<H>(tokens: seq<string>, lookup: int -> Result<H>)
  {
    forall k :: 0 <= k < |tokens| && ParseInt(tokens[k]).Some? ==> lookup(ParseInt(tokens[k]).value).Ok?
  }

  /**
   * When every lookup succeeds, the scan is never stopped and finds one
   * host per integer token, in order, each the lookup of that token.
   */
  lemma {:induction false} ScanFindsHosts<H>(tokens: seq<string>, lookup: int -> Result<H>)
    requires LookupsSucceed(tokens, lookup)
    ensures Scan(tokens, lookup).stopped.None?
    ensures |Scan(tokens, lookup).hosts| == |IntTokens(tokens)|
    ensures forall k :: 0 <= k < |IntTokens(tokens)| ==> lookup(IntTokens(tokens)[k]) == Ok(Scan(tokens, lookup).hosts[k])
  {
    if tokens != [] {
      var init := tokens[..|tokens| - 1];
      var t := tokens[|tokens| - 1];
      assert LookupsSucceed(init, lookup) by {
        assert forall k :: 0 <= k < |init| ==> init[k] == tokens[k];
      }
      ScanFindsHosts(init, lookup);
      var s := Scan(init, lookup);
      if ParseInt(t).Some? {
        assert lookup(ParseInt(t).value).Ok?;
        assert Scan(tokens, lookup).hosts == s.hosts + [lookup(ParseInt(t).value).value];
        assert IntTokens(tokens) == IntTokens(init) + [ParseInt(t).value];
      }
    }
  }

  /**
   * When every lookup succeeds, the scan fails exactly when some token is
   * not an integer, and names every such token, each after a space; every
   * token is counted once, as a host ID or as unparsable.
   */
  lemma {:induction false} ScanReportsBadTokens<H>(tokens: seq<string>, lookup: int -> Result<H>)
    requires LookupsSucceed(tokens, lookup)
    ensures Scan(tokens, lookup).failed <==> BadTokens(tokens) != []
    ensures Scan(tokens, lookup).unparsable == SpaceEach(BadTokens(tokens))
    ensures |IntTokens(tokens)| + |BadTokens(tokens)| == |tokens|
  {
    if tokens != [] {
      var init := tokens[..|tokens| - 1];
      var t := tokens[|tokens| - 1];
      assert LookupsSucceed(init, lookup) by {
        assert forall k :: 0 <= k < |init| ==> init[k] == tokens[k];
      }
      ScanFindsHosts(init, lookup);
      ScanReportsBadTokens(init, lookup);
      var st := Scan(init, lookup);
      if ParseInt(t).None? {
        assert Scan(tokens, lookup) == st.(failed := true, unparsable := st.unparsable + " " + t);
        var b := BadTokens(init) + [t];
        assert BadTokens(tokens) == b;
        assert b[..|b| - 1] == BadTokens(init);
        assert SpaceEach(b) == SpaceEach(BadTokens(init)) + " " + t;
      } else {
        assert lookup(ParseInt(t).value).Ok?;
        assert Scan(tokens, lookup) == st.(hosts := st.hosts + [lookup(ParseInt(t).value).value]);
        assert BadTokens(tokens) == BadTokens(init);
      }
    }
  }


  // ---------------------------------------------------------------------
  // Export-list comparisons

  /** The short export of a host. */
  datatype HostExportShort = HostExportShort(id: int, state: string, hostName: string, hostROID: string,
                                             createdBy: string, holdActive: bool, holdBy: string, holdReason: string)

  function HostIDs(hosts: seq<Host>): (r: seq<int>)
    ensures |r| == |hosts| && forall k :: 0 <= k < |hosts| ==> r[k] == hosts[k].id
  {
    seq(|hosts|, k requires 0 <= k < |hosts| => hosts[k].id)
  }

  function ExportIDs(exports: seq<HostExportShort>): (r: seq<int>)
    ensures |r| == |exports| && forall k :: 0 <= k < |exports| ==> r[k] == exports[k].id
  {
    seq(|exports|, k requires 0 <= k < |exports| => exports[k].id)
  }

  /** CompareToHostListExportShortList: equal counts, and every ID of each list occurs in the other. */
  method CompareToHostListExportShortList(hosts: seq<Host>, exports: seq<HostExportShort>) returns (r: bool)
    ensures r <==> SameIdLists(HostIDs(hosts), ExportIDs(exports))
  {
    r := CompareIdLists(HostIDs(hosts), ExportIDs(exports));
  }

  /** CompareToHostExportShortLists: the same comparison between two export lists. */
  method CompareToHostExportShortLists(exports1: seq<HostExportShort>, exports2: seq<HostExportShort>) returns (r: bool)
    ensures r <==> SameIdLists(ExportIDs(exports1), ExportIDs(exports2))
  {
    r := CompareIdLists(ExportIDs(exports1), ExportIDs(exports2));
  }
}
