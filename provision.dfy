// The provisioning tool's reconciliation helpers (provision/main.go): the
// parent domain of a host name, the differences between the registry's
// view of a domain or host and the registrar's, and the binning of the
// status differences into flags to add and flags to remove.

module Provision {
  import opened Common
  import opened EppBase
  import EppResponse
  import DomainRevision
  import HostRevision

  const ErrInvalidHostname: string := "Invalid Hostname"
  const ErrDomainInfoEmpty: string := "Domain info section of registry response is empty"
  const ErrHostInfoEmpty: string := "Host info section of registry response is empty"

  // ---------------------------------------------------------------------
  // GetParentDomain

  /**
   * GetParentDomain: the last two labels of a name of at least three
   * labels whose last label is COM or NET.
   */
  function GetParentDomain(hostname: string): (r: Result<string>)
    ensures |Split(hostname, '.')| <= 2 <==> r == Err(ErrInvalidHostname)
    ensures r.Ok? <==> |Split(hostname, '.')| > 2 && Split(hostname, '.')[|Split(hostname, '.')| - 1] in {"COM", "NET"}
    ensures r.Err? && r.msg != ErrInvalidHostname ==>
      r.msg == "Unhandled TLD " + Split(hostname, '.')[|Split(hostname, '.')| - 1]
  {
    var tokens := Split(hostname, '.');
    if |tokens| > 2 then
      var tld := tokens[|tokens| - 1];
      if tld == "COM" || tld == "NET" then Ok(Join(tokens[|tokens| - 2..], '.'))
      else
        assert ("Unhandled TLD " + tld)[0] == 'U';
        Err("Unhandled TLD " + tld)
    else Err(ErrInvalidHostname)
  }

  lemma {:induction false} JoinAppend(a: seq<string>, b: seq<string>, sep: char)
    requires |a| >= 1 && |b| >= 1
    ensures Join(a + b, sep) == Join(a, sep) + [sep] + Join(b, sep)
    decreases |a|
  {
    if |a| == 1 {
      assert (a + b)[1..] == b;
    } else {
      JoinAppend(a[1..], b, sep);
      assert (a + b)[1..] == a[1..] + b;
    }
  }

  /** The parent is the last two labels joined by a dot. */
  lemma ParentDomainLabels(hostname: string)
    requires GetParentDomain(hostname).Ok?
    ensures var tokens := Split(hostname, '.');
      GetParentDomain(hostname).value == tokens[|tokens| - 2] + "." + tokens[|tokens| - 1]
  {
    var tokens := Split(hostname, '.');
    var n := |tokens|;
    assert tokens[n - 2..] == [tokens[n - 2], tokens[n - 1]];
    Join2(tokens[n - 2], tokens[n - 1], '.');
  }

  /** The name is the labels before the parent, a dot, and the parent. */
  lemma ParentDomainSuffix(hostname: string)
    requires GetParentDomain(hostname).Ok?
    ensures var tokens := Split(hostname, '.');
      hostname == Join(tokens[..|tokens| - 2], '.') + "." + GetParentDomain(hostname).value
  {
    var tokens := Split(hostname, '.');
    var n := |tokens|;
    JoinSplit(hostname, '.');
    assert tokens == tokens[..n - 2] + tokens[n - 2..];
    JoinAppend(tokens[..n - 2], tokens[n - 2..], '.');
  }

  /** The name ends with "." and its parent. */
  lemma ParentDomainIsSuffix(hostname: string)
    requires GetParentDomain(hostname).Ok?
    ensures HasSuffix(hostname, "." + GetParentDomain(hostname).value)
  {
    var tokens := Split(hostname, '.');
    ParentDomainSuffix(hostname);
    HasSuffixOfConcat(Join(tokens[..|tokens| - 2], '.'), "." + GetParentDomain(hostname).value);
  }

  /** The parent splits into exactly the name's last two labels. */
  lemma ParentDomainSplit(hostname: string)
    requires GetParentDomain(hostname).Ok?
    ensures var tokens := Split(hostname, '.');
      Split(GetParentDomain(hostname).value, '.') == tokens[|tokens| - 2..]
  {
    var tokens := Split(hostname, '.');
    var n := |tokens|;
    ParentDomainLabels(hostname);
    assert tokens[n - 2..] == [tokens[n - 2], tokens[n - 1]];
    SplitOfLabels(tokens[n - 2], tokens[n - 1]);
  }

  /** The parent ends with "." and the top-level label. */
  lemma ParentDomainEndsWithTLD(hostname: string)
    requires GetParentDomain(hostname).Ok?
    ensures var tokens := Split(hostname, '.');
      HasSuffix(GetParentDomain(hostname).value, "." + tokens[|tokens| - 1])
  {
    var tokens := Split(hostname, '.');
    var n := |tokens|;
    ParentDomainLabels(hostname);
    HasSuffixOfConcat(tokens[n - 2], "." + tokens[n - 1]);
  }

  /**
   * A parent domain is the name's last two labels: the name ends with "."
   * and the parent, the parent splits into exactly those labels, and it
   * ends with the top-level label, COM or NET.
   */
  lemma ParentDomainShape(hostname: string)
    requires GetParentDomain(hostname).Ok?
    ensures var p := GetParentDomain(hostname).value;
      var tokens := Split(hostname, '.');
      HasSuffix(hostname, "." + p) && Split(p, '.') == tokens[|tokens| - 2..] &&
      HasSuffix(p, "." + tokens[|tokens| - 1]) && tokens[|tokens| - 1] in {"COM", "NET"}
  {
    ParentDomainIsSuffix(hostname);
    ParentDomainSplit(hostname);
    ParentDomainEndsWithTLD(hostname);
  }

  lemma HasSuffixOfConcat(a: string, b: string)
    ensures HasSuffix(a + b, b)
  {
    assert (a + b)[|a + b| - |b|..] == b;
  }

  lemma SplitOfLabels(a: string, b: string)
    requires NoChar(a, '.') && NoChar(b, '.')
    ensures Split(a + "." + b, '.') == [a, b]
  {
    Join2(a, b, '.');
    SplitJoin([a, b], '.');
  }

  /** A parent domain has no parent; a further label in front does not change the parent. */
  lemma ParentDomainStable(hostname: string, first: string)
    requires GetParentDomain(hostname).Ok? && NoChar(first, '.')
    ensures GetParentDomain(GetParentDomain(hostname).value) == Err(ErrInvalidHostname)
    ensures GetParentDomain(first + "." + hostname) == GetParentDomain(hostname)
  {
    ParentDomainShape(hostname);
    SplitCons(first, hostname, '.');
    var tokens := Split(hostname, '.');
    var longer := Split(first + "." + hostname, '.');
    assert longer == [first] + tokens;
    assert longer[|longer| - 2..] == tokens[|tokens| - 2..];
  }

  // ---------------------------------------------------------------------
  // binStatus

  /**
   * binStatus: an unset difference leaves both lists; a set one appends
   * the status to the list to add when the registrar wants it and to the
   * list to remove otherwise.
   */
  method BinStatus(status: Option<bool>, key: string, addStatus: seq<string>, remStatus: seq<string>)
    returns (add: seq<string>, rem: seq<string>)
    ensures status.None? ==> add == addStatus && rem == remStatus
    ensures status.Some? && status.value ==> add == addStatus + [key] && rem == remStatus
    ensures status.Some? && !status.value ==> add == addStatus && rem == remStatus + [key]
  {
    add, rem := addStatus, remStatus;
    if status.Some? {
      if status.value {
        add := add + [key];
      } else {
        rem := rem + [key];
      }
    }
  }

  // ---------------------------------------------------------------------
  // DiffHostList

  predicate HasDomainInfo(registry: Option<EppResponse.Response>)
  {
    registry.Some? && registry.value.resultData.Some? && registry.value.resultData.value.domainInf.Some?
  }

  predicate HasHostInfo(registry: Option<EppResponse.Response>)
  {
    registry.Some? && registry.value.resultData.Some? && registry.value.resultData.value.hostInf.Some?
  }

  /** The elements of `xs` that `ys` lacks, in order. */
  function Missing(xs: seq<string>, ys: seq<string>): (r: seq<string>)
    ensures forall x :: x in r <==> x in xs && x !in ys
    ensures |r| <= |xs|
  {
    if xs == [] then []
    else
      var init := Missing(xs[..|xs| - 1], ys);
      var last := xs[|xs| - 1];
      assert xs == xs[..|xs| - 1] + [last];
      init + (if last in ys then [] else [last])
  }

  function RegistryHosts(inf: EppResponse.DomainInfDataResp): (r: seq<string>)
    ensures |r| == |inf.nsHosts| && forall k :: 0 <= k < |r| ==> r[k] == inf.nsHosts[k].value
  {
    seq(|inf.nsHosts|, k requires 0 <= k < |inf.nsHosts| => inf.nsHosts[k].value)
  }

  datatype HostListChanges = HostListChanges(addHosts: seq<string>, remHosts: seq<string>)

  /** The found loop over the other list. */
  method Found(x: string, ys: seq<string>) returns (found: bool)
    ensures found <==> x in ys
  {
    found := false;
    for j := 0 to |ys|
      invariant found <==> x in ys[..j]
    {
      assert ys[..j + 1] == ys[..j] + [ys[j]];
      if x == ys[j] {
        found := true;
      }
    }
    assert ys[..|ys|] == ys;
  }

  /** One of the outer loops: the elements of `xs` not found in `ys`. */
  method CollectMissing(xs: seq<string>, ys: seq<string>) returns (out: seq<string>)
    ensures out == Missing(xs, ys)
  {
    out := [];
    for i := 0 to |xs|
      invariant out == Missing(xs[..i], ys)
    {
      assert xs[..i + 1][..i] == xs[..i];
      var found := Found(xs[i], ys);
      if !found {
        out := out + [xs[i]];
      }
    }
    assert xs[..|xs|] == xs;
  }

  /**
   * DiffHostList: an error without domain info; otherwise the name
   * servers to remove are the registry's that the revision does not list
   * and those to add are the revision's that the registry lacks, in order.
   */
  method DiffHostList(registry: Option<EppResponse.Response>, registrar: DomainRevision.DomainRevisionRecord)
    returns (r: Result<HostListChanges>)
    ensures r.Err? <==> !HasDomainInfo(registry)
    ensures r.Err? ==> r.msg == ErrDomainInfoEmpty
    ensures r.Ok? ==>
      var current := RegistryHosts(registry.value.resultData.value.domainInf.value);
      r.value.remHosts == Missing(current, registrar.hostnames) &&
      r.value.addHosts == Missing(registrar.hostnames, current)
  {
    if !HasDomainInfo(registry) {
      return Err(ErrDomainInfoEmpty);
    }
    var inf := registry.value.resultData.value.domainInf.value;
    var currentList: seq<string> := [];
    for i := 0 to |inf.nsHosts|
      invariant currentList == RegistryHosts(inf)[..i]
    {
      currentList := currentList + [inf.nsHosts[i].value];
    }
    assert currentList == RegistryHosts(inf);
    var expectedList: seq<string> := [];
    for i := 0 to |registrar.hostnames|
      invariant expectedList == registrar.hostnames[..i]
    {
      expectedList := expectedList + [registrar.hostnames[i]];
    }
    assert expectedList == registrar.hostnames;
    var remHosts := CollectMissing(currentList, expectedList);
    var addHosts := CollectMissing(expectedList, currentList);
    return Ok(HostListChanges(addHosts, remHosts));
  }

  /**
   * Applying the changes makes the registry's set of name servers the
   * revision's: keep what is not removed, add what is added; there is
   * nothing to change exactly when both sides name the same servers.
   */
  lemma HostChangesReconcile(current: seq<string>, expected: seq<string>)
    ensures var rem, add := Missing(current, expected), Missing(expected, current);
      (forall h :: (h in current && h !in rem) || h in add <==> h in expected) &&
      (rem == [] && add == [] <==> IncludedIn(current, expected) && IncludedIn(expected, current))
  {
    var rem, add := Missing(current, expected), Missing(expected, current);
    if rem != [] {
      assert rem[0] in rem;
    }
    if add != [] {
      assert add[0] in add;
    }
  }

  // ---------------------------------------------------------------------
  // DiffDomainStatuses and DiffHostStatuses

  /** The client statuses of one object whose value must change: unset when
      the registry already agrees, the registrar's value otherwise. */
  datatype DomainStatusChanges = DomainStatusChanges(clientUpdate: Option<bool>, clientDelete: Option<bool>,
    clientTransfer: Option<bool>, clientRenew: Option<bool>, clientHold: Option<bool>)

  datatype HostStatusChanges = HostStatusChanges(clientUpdate: Option<bool>, clientDelete: Option<bool>)

  /** The change a flag needs: none when the registry has it as the registrar wants. */
  function Change(wanted: bool, present: bool): (r: Option<bool>)
    ensures r.Some? <==> wanted != present
    ensures r.Some? ==> r.value == wanted
  {
    if wanted != present then Some(wanted) else None
  }

  /** The status loop: which of the listed statuses the registry reports. */
  method StatusesPresent(statuses: seq<string>, keys: seq<string>) returns (present: seq<bool>)
    ensures |present| == |keys| && forall k :: 0 <= k < |keys| ==> (present[k] <==> keys[k] in statuses)
  {
    present := seq(|keys|, k => false);
    for i := 0 to |statuses|
      invariant |present| == |keys|
      invariant forall k :: 0 <= k < |keys| ==> (present[k] <==> keys[k] in statuses[..i])
    {
      assert statuses[..i + 1] == statuses[..i] + [statuses[i]];
      present := seq(|keys|, k requires 0 <= k < |keys| => present[k] || keys[k] == statuses[i]);
    }
    assert statuses[..|statuses|] == statuses;
  }

  /**
   * DiffDomainStatuses: an error without domain info; otherwise each
   * client status is to change exactly when the registrar's flag differs
   * from whether the registry reports it, and then to the registrar's flag.
   */
  method DiffDomainStatuses(registry: Option<EppResponse.Response>, registrar: DomainRevision.DomainRevisionRecord)
    returns (r: Result<DomainStatusChanges>)
    ensures r.Err? <==> !HasDomainInfo(registry)
    ensures r.Err? ==> r.msg == ErrDomainInfoEmpty
    ensures r.Ok? ==>
      var st := registry.value.resultData.value.domainInf.value.status;
      r.value.clientUpdate == Change(registrar.clientUpdateProhibited, StatusClientUpdateProhibited in st) &&
      r.value.clientDelete == Change(registrar.clientDeleteProhibited, StatusClientDeleteProhibited in st) &&
      r.value.clientTransfer == Change(registrar.clientTransferProhibited, StatusClientTransferProhibited in st) &&
      r.value.clientRenew == Change(registrar.clientRenewProhibited, StatusClientRenewProhibited in st) &&
      r.value.clientHold == Change(registrar.clientHold, StatusClientHold in st)
  {
    if !HasDomainInfo(registry) {
      return Err(ErrDomainInfoEmpty);
    }
    var st := registry.value.resultData.value.domainInf.value.status;
    var keys := [StatusClientDeleteProhibited, StatusClientUpdateProhibited, StatusClientTransferProhibited,
                 StatusClientRenewProhibited, StatusClientHold];
    var present := StatusesPresent(st, keys);
    assert keys[0] == StatusClientDeleteProhibited && keys[1] == StatusClientUpdateProhibited;
    assert keys[2] == StatusClientTransferProhibited && keys[3] == StatusClientRenewProhibited;
    assert keys[4] == StatusClientHold;
    return Ok(DomainStatusChanges(
      Change(registrar.clientUpdateProhibited, present[1]),
      Change(registrar.clientDeleteProhibited, present[0]),
      Change(registrar.clientTransferProhibited, present[2]),
      Change(registrar.clientRenewProhibited, present[3]),
      Change(registrar.clientHold, present[4])));
  }

  /**
   * DiffHostStatuses: the same rule for a host's update and delete
   * statuses; an error without host info.
   */
  method DiffHostStatuses(registry: Option<EppResponse.Response>, registrar: HostRevision.HostRevisionRecord)
    returns (r: Result<HostStatusChanges>)
    ensures r.Err? <==> !HasHostInfo(registry)
    ensures r.Err? ==> r.msg == ErrHostInfoEmpty
    ensures r.Ok? ==>
      var st := registry.value.resultData.value.hostInf.value.status;
      r.value.clientUpdate == Change(registrar.clientUpdateProhibited, StatusClientUpdateProhibited in st) &&
      r.value.clientDelete == Change(registrar.clientDeleteProhibited, StatusClientDeleteProhibited in st)
  {
    if !HasHostInfo(registry) {
      return Err(ErrHostInfoEmpty);
    }
    var st := registry.value.resultData.value.hostInf.value.status;
    var keys := [StatusClientDeleteProhibited, StatusClientUpdateProhibited];
    var present := StatusesPresent(st, keys);
    assert keys[0] == StatusClientDeleteProhibited && keys[1] == StatusClientUpdateProhibited;
    return Ok(HostStatusChanges(
      Change(registrar.clientUpdateProhibited, present[1]),
      Change(registrar.clientDeleteProhibited, present[0])));
  }

  /** The statuses a difference list adds (or, with `wanted` false, removes), in binning order. */
  function Binned(changes: seq<(Option<bool>, string)>, wanted: bool): seq<string>
  {
    if changes == [] then []
    else
      var last := changes[|changes| - 1];
      Binned(changes[..|changes| - 1], wanted) + (if last.0 == Some(wanted) then [last.1] else [])
  }

  /** The five domain statuses in the order the domain update bins them. */
  function DomainBinning(c: DomainStatusChanges): seq<(Option<bool>, string)>
  {
    [(c.clientUpdate, StatusClientUpdateProhibited), (c.clientDelete, StatusClientDeleteProhibited),
     (c.clientTransfer, StatusClientTransferProhibited), (c.clientRenew, StatusClientRenewProhibited),
     (c.clientHold, StatusClientHold)]
  }

  /** The binning of a domain's status changes into the flags to add and to remove. */
  method BinDomainStatuses(c: DomainStatusChanges) returns (addStatus: seq<string>, remStatus: seq<string>)
    ensures addStatus == Binned(DomainBinning(c), true) && remStatus == Binned(DomainBinning(c), false)
  {
    var changes := DomainBinning(c);
    addStatus, remStatus := [], [];
    for i := 0 to |changes|
      invariant addStatus == Binned(changes[..i], true) && remStatus == Binned(changes[..i], false)
    {
      assert changes[..i + 1][..i] == changes[..i];
      assert changes[..i + 1][i] == changes[i];
      assert Binned(changes[..i + 1], true) ==
        Binned(changes[..i], true) + (if changes[i].0 == Some(true) then [changes[i].1] else []);
      assert Binned(changes[..i + 1], false) ==
        Binned(changes[..i], false) + (if changes[i].0 == Some(false) then [changes[i].1] else []);
      var prevAdd, prevRem := addStatus, remStatus;
      addStatus, remStatus := BinStatus(changes[i].0, changes[i].1, addStatus, remStatus);
      if changes[i].0.Some? {
        assert changes[i].0 == Some(changes[i].0.value);
      }
    }
    assert changes[..|changes|] == changes;
  }

  lemma {:induction false} BinnedMembers(changes: seq<(Option<bool>, string)>, wanted: bool)
    ensures forall s :: s in Binned(changes, wanted) <==>
      exists k :: 0 <= k < |changes| && changes[k] == (Some(wanted), s)
  {
    if changes != [] {
      var init := changes[..|changes| - 1];
      BinnedMembers(init, wanted);
      forall s | s in Binned(changes, wanted)
        ensures exists k :: 0 <= k < |changes| && changes[k] == (Some(wanted), s)
      {
        if s in Binned(init, wanted) {
          var k :| 0 <= k < |init| && init[k] == (Some(wanted), s);
          assert changes[k] == init[k];
        } else {
          assert changes[|changes| - 1] == (Some(wanted), s);
        }
      }
      forall s | exists k :: 0 <= k < |changes| && changes[k] == (Some(wanted), s)
        ensures s in Binned(changes, wanted)
      {
        var k :| 0 <= k < |changes| && changes[k] == (Some(wanted), s);
        if k < |changes| - 1 {
          assert init[k] == changes[k];
        }
      }
    }
  }

  /** With distinct statuses, a status is binned exactly when its own change asks for it. */
  lemma BinnedAt(changes: seq<(Option<bool>, string)>, k: int, wanted: bool)
    requires 0 <= k < |changes|
    requires forall i, j :: 0 <= i < j < |changes| ==> changes[i].1 != changes[j].1
    ensures changes[k].1 in Binned(changes, wanted) <==> changes[k].0 == Some(wanted)
  {
    BinnedMembers(changes, wanted);
    if changes[k].1 in Binned(changes, wanted) {
      var j :| 0 <= j < |changes| && changes[j] == (Some(wanted), changes[k].1);
      assert j == k;
    }
  }

  /** A status is in force after the update: kept and not removed, or added. */
  predicate InForce(s: string, st: seq<string>, add: seq<string>, rem: seq<string>)
  {
    (s in st && s !in rem) || s in add
  }

  /** Distinct statuses are never both added and removed. */
  lemma BinnedDisjoint(changes: seq<(Option<bool>, string)>)
    requires forall i, j :: 0 <= i < j < |changes| ==> changes[i].1 != changes[j].1
    ensures forall s :: !(s in Binned(changes, true) && s in Binned(changes, false))
  {
    BinnedMembers(changes, true);
    forall s | s in Binned(changes, true)
      ensures s !in Binned(changes, false)
    {
      var k :| 0 <= k < |changes| && changes[k] == (Some(true), s);
      BinnedAt(changes, k, false);
    }
  }

  /** The changes DiffDomainStatuses reports for these registry statuses. */
  function DomainChangesFor(st: seq<string>, registrar: DomainRevision.DomainRevisionRecord): DomainStatusChanges
  {
    DomainStatusChanges(
      Change(registrar.clientUpdateProhibited, StatusClientUpdateProhibited in st),
      Change(registrar.clientDeleteProhibited, StatusClientDeleteProhibited in st),
      Change(registrar.clientTransferProhibited, StatusClientTransferProhibited in st),
      Change(registrar.clientRenewProhibited, StatusClientRenewProhibited in st),
      Change(registrar.clientHold, StatusClientHold in st))
  }

  lemma FlagReconciled(changes: seq<(Option<bool>, string)>, k: int, st: seq<string>, wanted: bool)
    requires 0 <= k < |changes|
    requires forall i, j :: 0 <= i < j < |changes| ==> changes[i].1 != changes[j].1
    requires changes[k].0 == Change(wanted, changes[k].1 in st)
    ensures InForce(changes[k].1, st, Binned(changes, true), Binned(changes, false)) == wanted
  {
    BinnedAt(changes, k, true);
    BinnedAt(changes, k, false);
  }

  /**
   * Applying the binned flags to the registry's statuses gives the
   * registrar's flags: a client status is in force afterwards exactly
   * when the registrar's revision sets it, and no status is both added
   * and removed.
   */
  lemma DomainStatusesReconcile(st: seq<string>, registrar: DomainRevision.DomainRevisionRecord)
    ensures var c := DomainChangesFor(st, registrar);
      var add, rem := Binned(DomainBinning(c), true), Binned(DomainBinning(c), false);
      InForce(StatusClientUpdateProhibited, st, add, rem) == registrar.clientUpdateProhibited &&
      InForce(StatusClientDeleteProhibited, st, add, rem) == registrar.clientDeleteProhibited &&
      InForce(StatusClientTransferProhibited, st, add, rem) == registrar.clientTransferProhibited &&
      InForce(StatusClientRenewProhibited, st, add, rem) == registrar.clientRenewProhibited &&
      InForce(StatusClientHold, st, add, rem) == registrar.clientHold &&
      (forall s :: !(s in add && s in rem))
  {
    var changes := DomainBinning(DomainChangesFor(st, registrar));
    assert forall i, j :: 0 <= i < j < |changes| ==> changes[i].1 != changes[j].1;
    FlagReconciled(changes, 0, st, registrar.clientUpdateProhibited);
    FlagReconciled(changes, 1, st, registrar.clientDeleteProhibited);
    FlagReconciled(changes, 2, st, registrar.clientTransferProhibited);
    FlagReconciled(changes, 3, st, registrar.clientRenewProhibited);
    FlagReconciled(changes, 4, st, registrar.clientHold);
    BinnedDisjoint(changes);
  }
}
