// The registrar's domain object (lib/domain.go): which names can be
// registered, reconciling a domain with the registry's info response
// (the DS-record diff and the provisioning verdict), the suggested
// values of a new revision, the WHOIS status lookup, the hold status and
// the DS entry formatters.

module Domain {
  import opened Common
  import opened EppBase
  import opened RegistrarObject
  import EppResponse
  import DomainRevision

  // ---------------------------------------------------------------------
  // Registrable names

  /** The zones the registrar can register names in. */
  const ValidSuffixList: seq<string> := [".COM", ".NET"]

  const ErrNoValidZone: string := "no valid zone found"
  const ErrSubdomain: string := "cannot register a subdomain"

  /**
   * RegisterableDomainSuffix: the longest zone the name ends with (the
   * first of equally long ones), or "" when it ends with none.
   */
  method RegisterableDomainSuffix(domainName: string) returns (longestSuffix: string)
    ensures longestSuffix == "" <==> forall k :: 0 <= k < |ValidSuffixList| ==> !HasSuffix(domainName, ValidSuffixList[k])
    ensures longestSuffix != "" ==> longestSuffix in ValidSuffixList && HasSuffix(domainName, longestSuffix)
    ensures forall k :: 0 <= k < |ValidSuffixList| && HasSuffix(domainName, ValidSuffixList[k]) ==>
      |ValidSuffixList[k]| <= |longestSuffix|
  {
    longestSuffix := "";
    for i := 0 to |ValidSuffixList|
      invariant longestSuffix == "" <==> forall k :: 0 <= k < i ==> !HasSuffix(domainName, ValidSuffixList[k])
      invariant longestSuffix != "" ==> longestSuffix in ValidSuffixList && HasSuffix(domainName, longestSuffix)
      invariant forall k :: 0 <= k < i && HasSuffix(domainName, ValidSuffixList[k]) ==>
        |ValidSuffixList[k]| <= |longestSuffix|
    {
      var suffix := ValidSuffixList[i];
      if HasSuffix(domainName, suffix) {
        if |suffix| > |longestSuffix| {
          longestSuffix := suffix;
        }
      }
    }
  }

  /** The text before the last occurrence of a suffix the name ends with is the name without it. */
  lemma LastIndexOfSuffix(s: string, suffix: string)
    requires HasSuffix(s, suffix)
    ensures LastIndex(s, suffix) == |s| - |suffix|
  {
    assert OccursAt(s, suffix, |s| - |suffix|);
  }

  /**
   * IsRegisterableDomain: an error when the name is in no zone, an error
   * when the label before the zone holds a '.', and true otherwise.
   */
  method IsRegisterableDomain(domainName: string) returns (r: Result<bool>)
    ensures r == Err(ErrNoValidZone) <==> forall s :: s in ValidSuffixList ==> !HasSuffix(domainName, s)
    ensures r == Err(ErrSubdomain) <==>
      exists s :: (s in ValidSuffixList && HasSuffix(domainName, s) && Contains(domainName[..|domainName| - |s|], '.'))
    ensures r.Ok? ==> r.value
    ensures r.Err? ==> r.msg in {ErrNoValidZone, ErrSubdomain}
  {
    var suffix := RegisterableDomainSuffix(domainName);
    if |suffix| != 0 {
      LastIndexOfSuffix(domainName, suffix);
      var subdomainEnd := LastIndex(domainName, suffix);
      var subdomain := domainName[0..subdomainEnd];
      SuffixUnique(domainName, suffix);
      if Contains(subdomain, '.') {
        return Err(ErrSubdomain);
      }
      return Ok(true);
    }
    return Err(ErrNoValidZone);
  }

  /** No name ends with two different zones. */
  lemma SuffixUnique(domainName: string, suffix: string)
    requires suffix in ValidSuffixList && HasSuffix(domainName, suffix)
    ensures forall s :: s in ValidSuffixList && HasSuffix(domainName, s) ==> s == suffix
  {
    forall s | s in ValidSuffixList && HasSuffix(domainName, s)
      ensures s == suffix
    {
      assert |s| == 4 && |suffix| == 4;
      assert s == domainName[|domainName| - 4..] == suffix;
    }
  }

  /** A bare zone name is accepted: the empty label before it holds no '.'. */
  lemma BareZoneAccepted()
    ensures HasSuffix(".COM", ".COM") && !Contains(".COM"[..0], '.')
    ensures forall s :: s in ValidSuffixList && HasSuffix(".COM", s) ==> s == ".COM"
  {
    SuffixUnique(".COM", ".COM");
  }

  // ---------------------------------------------------------------------
  // DS records and DiffDomainDSData

  const ErrDomainInfoEmpty: string := "Domain info section of registry response is empty"

  /** The registry's DS records: those of the DNSSEC extension, or none. */
  function RegistryDS(resp: EppResponse.Response): seq<DSData>
  {
    if resp.extension.Some? && resp.extension.value.secDNSInfData.Some?
    then resp.extension.value.secDNSInfData.value.dsData else []
  }

  /** A registrar DS entry as an EPP DS record. */
  function EppDSOf(e: DomainRevision.DSData): DSData
  {
    DSData(e.keyTag, e.algorithm, e.digestType, e.digest)
  }

  function ExpectedDS(registrar: seq<DomainRevision.DSData>): (r: seq<DSData>)
    ensures |r| == |registrar| && forall k :: 0 <= k < |registrar| ==> r[k] == EppDSOf(registrar[k])
  {
    seq(|registrar|, k requires 0 <= k < |registrar| => EppDSOf(registrar[k]))
  }

  /** The key a DS record is filed under: "%d:%d:%d:%s" of its fields. */
  function DSKey(d: DSData): string
  {
    IntToString(d.keyTag) + ":" + IntToString(d.alg) + ":" + IntToString(d.digestType) + ":" + d.digest
  }

  /** The map the records are filed into, a later record replacing an earlier one of the same key. */
  function KeyMap(ds: seq<DSData>): map<string, DSData>
  {
    if ds == [] then map[] else KeyMap(ds[..|ds| - 1])[DSKey(ds[|ds| - 1]) := ds[|ds| - 1]]
  }

  /** The position of the first ':' of a string (its length when there is none). */
  function FirstColon(s: string): (r: nat)
    ensures r <= |s|
  {
    if s == [] || s[0] == ':' then 0 else 1 + FirstColon(s[1..])
  }

  lemma {:induction false} FirstColonOf(x: string, rest: string)
    requires NoChar(x, ':')
    ensures FirstColon(x + ":" + rest) == |x|
    decreases |x|
  {
    if x != [] {
      assert (x + ":" + rest)[1..] == x[1..] + ":" + rest;
      FirstColonOf(x[1..], rest);
    }
  }

  lemma NoColonPrefix(x1: string, r1: string, x2: string, r2: string)
    requires NoChar(x1, ':') && NoChar(x2, ':') && x1 + ":" + r1 == x2 + ":" + r2
    ensures x1 == x2 && r1 == r2
  {
    var s := x1 + ":" + r1;
    FirstColonOf(x1, r1);
    FirstColonOf(x2, r2);
    assert x1 == s[..|x1|] == x2;
    assert r1 == s[|x1| + 1..] == r2;
  }

  /** A number's text starts with '-' exactly when it is negative. */
  lemma IntToStringSign(i: int)
    ensures |IntToString(i)| > 0 && (IntToString(i)[0] == '-' <==> i < 0)
  {
    if i >= 0 {
      NatToStringNoColon(i);
    }
  }

  lemma IntToStringInjective(i: int, j: int)
    requires IntToString(i) == IntToString(j)
    ensures i == j
  {
    IntToStringSign(i);
    IntToStringSign(j);
    var m: nat := if i < 0 then -i else i;
    var n: nat := if j < 0 then -j else j;
    if i < 0 {
      assert NatToString(m) == IntToString(i)[1..] == NatToString(n);
    }
    NatToStringInjective(m, n);
  }

  /** Different records have different keys. */
  lemma DSKeyInjective(a: DSData, b: DSData)
    requires DSKey(a) == DSKey(b)
    ensures a == b
  {
    var a1, a2, a3 := IntToString(a.keyTag), IntToString(a.alg), IntToString(a.digestType);
    var b1, b2, b3 := IntToString(b.keyTag), IntToString(b.alg), IntToString(b.digestType);
    DomainRevision.NoColonInNumber(a.keyTag);
    DomainRevision.NoColonInNumber(a.alg);
    DomainRevision.NoColonInNumber(a.digestType);
    DomainRevision.NoColonInNumber(b.keyTag);
    DomainRevision.NoColonInNumber(b.alg);
    DomainRevision.NoColonInNumber(b.digestType);
    assert DSKey(a) == a1 + ":" + (a2 + ":" + (a3 + ":" + a.digest));
    assert DSKey(b) == b1 + ":" + (b2 + ":" + (b3 + ":" + b.digest));
    NoColonPrefix(a1, a2 + ":" + (a3 + ":" + a.digest), b1, b2 + ":" + (b3 + ":" + b.digest));
    NoColonPrefix(a2, a3 + ":" + a.digest, b2, b3 + ":" + b.digest);
    NoColonPrefix(a3, a.digest, b3, b.digest);
    IntToStringInjective(a.keyTag, b.keyTag);
    IntToStringInjective(a.alg, b.alg);
    IntToStringInjective(a.digestType, b.digestType);
  }

  /** The map files every record of the list under its own key, and nothing else. */
  lemma {:induction false} KeyMapContents(ds: seq<DSData>)
    ensures forall k :: k in KeyMap(ds) ==> DSKey(KeyMap(ds)[k]) == k && KeyMap(ds)[k] in ds
    ensures forall d :: d in ds ==> DSKey(d) in KeyMap(ds) && KeyMap(ds)[DSKey(d)] == d
  {
    if ds != [] {
      var init := ds[..|ds| - 1];
      var last := ds[|ds| - 1];
      KeyMapContents(init);
      assert ds == init + [last];
      forall d | d in ds
        ensures DSKey(d) in KeyMap(ds) && KeyMap(ds)[DSKey(d)] == d
      {
        if d != last && DSKey(d) == DSKey(last) {
          DSKeyInjective(d, last);
        }
      }
    }
  }

  /** The records of `cur` whose key `exp` lacks. */
  function Unexpected<V>(cur: map<string, V>, exp: map<string, V>): set<V>
  {
    set k | k in cur && k !in exp :: cur[k]
  }

  function Elements<T>(xs: seq<T>): set<T>
  {
    set x | x in xs
  }

  /** No element is listed twice. */
  predicate Distinct<T(==)>(xs: seq<T>)
  {
    forall i, j :: 0 <= i < j < |xs| ==> xs[i] != xs[j]
  }

  /** The inner loop over the other map's keys: is `k` among them? */
  method KeyIn(k: string, keys: set<string>) returns (found: bool)
    ensures found <==> k in keys
  {
    found := false;
    var rest := keys;
    while rest != {}
      invariant rest <= keys
      invariant found <==> k in keys - rest
      decreases |rest|
    {
      var other :| other in rest;
      if k == other {
        found := true;
      }
      rest := rest - {other};
    }
  }

  /** The records of `cur` filed under one of `keys` whose key `exp` lacks. */
  function UnexpectedAmong<V>(cur: map<string, V>, exp: map<string, V>, keys: set<string>): set<V>
  { set k | k in cur && k in keys && k !in exp :: cur[k] }

  lemma AmongStep<V>(cur: map<string, V>, exp: map<string, V>, done: set<string>, k: string)
    requires k in cur
    ensures UnexpectedAmong(cur, exp, done + {k}) ==
      UnexpectedAmong(cur, exp, done) + (if k in exp then {} else {cur[k]})
  {
  }

  lemma ElementsSnoc<T>(xs: seq<T>, x: T)
    ensures Elements(xs + [x]) == Elements(xs) + {x}
  {
  }

  lemma DistinctSnoc<T>(xs: seq<T>, x: T)
    requires Distinct(xs) && x !in Elements(xs)
    ensures Distinct(xs + [x])
  {
  }

  lemma AmongAll<V>(cur: map<string, V>, exp: map<string, V>)
    ensures UnexpectedAmong(cur, exp, cur.Keys) == Unexpected(cur, exp)
  {
  }

  /** The invariant of the loop of CollectUnexpected: `out` holds, each
      once, the unexpected records among the keys seen so far. */
  ghost predicate CollectInv<V>(cur: map<string, V>, exp: map<string, V>, key: V -> string, done: set<string>, out: seq<V>)
  {
    && Elements(out) == UnexpectedAmong(cur, exp, done)
    && (forall x :: x in Elements(out) ==> key(x) in done)
    && Distinct(out)
  }

  /** One more key keeps the invariant, its record appended when it is
      unexpected. */
  lemma CollectStep<V>(cur: map<string, V>, exp: map<string, V>, key: V -> string, done: set<string>, out: seq<V>, k: string)
    requires forall k :: k in cur ==> key(cur[k]) == k
    requires k in cur && k !in done
    requires CollectInv(cur, exp, key, done, out)
    ensures CollectInv(cur, exp, key, done + {k}, if k in exp then out else out + [cur[k]])
  {
    AmongStep(cur, exp, done, k);
    if k !in exp {
      ElementsSnoc(out, cur[k]);
      DistinctSnoc(out, cur[k]);
    }
  }

  /** One of the final loops: the records of `cur` whose key `exp` lacks, each once. */
  method CollectUnexpected<V(==)>(cur: map<string, V>, exp: map<string, V>, ghost key: V -> string) returns (out: seq<V>)
    requires forall k :: k in cur ==> key(cur[k]) == k
    ensures Elements(out) == Unexpected(cur, exp) && Distinct(out)
  {
    out := [];
    var rest := cur.Keys;
    ghost var done: set<string> := {};
    while rest != {}
      invariant rest <= cur.Keys && done == cur.Keys - rest
      invariant CollectInv(cur, exp, key, done, out)
      decreases |rest|
    {
      var current :| current in rest;
      var found := KeyIn(current, exp.Keys);
      CollectStep(cur, exp, key, done, out, current);
      if !found {
        out := out + [cur[current]];
      }
      rest := rest - {current};
      done := done + {current};
    }
    assert done == cur.Keys;
    AmongAll(cur, exp);
  }

  datatype DSChanges = DSChanges(addDSRecords: seq<DSData>, remDSRecords: seq<DSData>)

  /**
   * DiffDomainDSData: an error without a registry response; otherwise the
   * registry's records whose key is not expected are to be removed and
   * the expected records whose key the registry lacks are to be added,
   * each record once.
   */
  method DiffDomainDSData(registry: Option<EppResponse.Response>, registrar: seq<DomainRevision.DSData>)
    returns (r: Result<DSChanges>)
    ensures r.Err? <==> registry.None?
    ensures r.Err? ==> r.msg == ErrDomainInfoEmpty
    ensures r.Ok? ==>
      var cur, exp := KeyMap(RegistryDS(registry.value)), KeyMap(ExpectedDS(registrar));
      Elements(r.value.addDSRecords) == Unexpected(exp, cur) && Distinct(r.value.addDSRecords) &&
      Elements(r.value.remDSRecords) == Unexpected(cur, exp) && Distinct(r.value.remDSRecords)
  {
    if registry.None? {
      return Err(ErrDomainInfoEmpty);
    }
    var entries := RegistryDS(registry.value);
    var currentDSData: map<string, DSData> := map[];
    for i := 0 to |entries|
      invariant currentDSData == KeyMap(entries[..i])
    {
      assert entries[..i + 1][..i] == entries[..i];
      currentDSData := currentDSData[DSKey(entries[i]) := entries[i]];
    }
    assert entries[..|entries|] == entries;
    var expectedDSData: map<string, DSData> := map[];
    for i := 0 to |registrar|
      invariant expectedDSData == KeyMap(ExpectedDS(registrar[..i]))
    {
      assert ExpectedDS(registrar[..i + 1])[..i] == ExpectedDS(registrar[..i]);
      var dsdata := DSData(registrar[i].keyTag, registrar[i].algorithm, registrar[i].digestType, registrar[i].digest);
      expectedDSData := expectedDSData[DSKey(dsdata) := dsdata];
    }
    assert registrar[..|registrar|] == registrar;
    KeyMapContents(entries);
    KeyMapContents(ExpectedDS(registrar));
    var rem := CollectUnexpected(currentDSData, expectedDSData, DSKey);
    var add := CollectUnexpected(expectedDSData, currentDSData, DSKey);
    r := Ok(DSChanges(add, rem));
  }

  /**
   * Keyed by their text, the records compare as values: the records to add
   * are the expected ones the registry lacks and the records to remove are
   * the registry's that are not expected; without a DNSSEC extension every
   * expected record is to be added.
   */
  lemma DSChangesAreDifferences(resp: EppResponse.Response, registrar: seq<DomainRevision.DSData>)
    ensures var cur, exp := KeyMap(RegistryDS(resp)), KeyMap(ExpectedDS(registrar));
      Unexpected(exp, cur) == Elements(ExpectedDS(registrar)) - Elements(RegistryDS(resp)) &&
      Unexpected(cur, exp) == Elements(RegistryDS(resp)) - Elements(ExpectedDS(registrar))
    ensures RegistryDS(resp) == [] ==>
      Unexpected(KeyMap(ExpectedDS(registrar)), KeyMap([])) == Elements(ExpectedDS(registrar))
  {
    UnexpectedIsDifference(ExpectedDS(registrar), RegistryDS(resp));
    UnexpectedIsDifference(RegistryDS(resp), ExpectedDS(registrar));
    UnexpectedIsDifference(ExpectedDS(registrar), []);
  }

  lemma UnexpectedIsDifference(xs: seq<DSData>, ys: seq<DSData>)
    ensures Unexpected(KeyMap(xs), KeyMap(ys)) == Elements(xs) - Elements(ys)
  {
    KeyMapContents(xs);
    KeyMapContents(ys);
    forall d | d in Unexpected(KeyMap(xs), KeyMap(ys))
      ensures d in Elements(xs) - Elements(ys)
    {
      var k :| k in KeyMap(xs) && k !in KeyMap(ys) && KeyMap(xs)[k] == d;
    }
    forall d | d in Elements(xs) - Elements(ys)
      ensures d in Unexpected(KeyMap(xs), KeyMap(ys))
    {
      if DSKey(d) in KeyMap(ys) {
        var e := KeyMap(ys)[DSKey(d)];
        DSKeyInjective(d, e);
      }
    }
  }

  // ---------------------------------------------------------------------
  // The provisioning verdict

  const EPPStatusProvisioned: string := "Provisioned"
  const EPPStatusServerFlagsMismatch: string := "Server Flags Mismatch"
  const EPPStatusAdditionalDSRecords: string := "Additional DS Record(s) found"
  const EPPStatusMissingDSRecords: string := "Missing DS Record(s)"
  const EPPStatusHostMismatch: string := "Hosts mismatch"
  const EPPStatusClientFlagMismatch: string := "Client Flags Mismatch"
  const EPPStatusPendingChange: string := "Pending Change"
  const EPPStatusPendingRenew: string := "Pending Renew"
  const VerdictInvalid: string := "Invalid EPP Domain Object"
  const VerdictPending: string := "PendingChangeState"

  predicate HasDomainInfo(resp: Option<EppResponse.Response>)
  {
    resp.Some? && resp.value.resultData.Some? && resp.value.resultData.value.domainInf.Some?
  }

  predicate AnyPending(st: seq<string>)
  {
    StatusPendingCreate in st || StatusPendingDelete in st || StatusPendingRenew in st ||
    StatusPendingTransfer in st || StatusPendingUpdate in st
  }

  predicate ClientFlagsMatch(st: seq<string>, rev: DomainRevision.DomainRevisionRecord)
  {
    (StatusClientUpdateProhibited in st) == rev.clientUpdateProhibited &&
    (StatusClientTransferProhibited in st) == rev.clientTransferProhibited &&
    (StatusClientRenewProhibited in st) == rev.clientRenewProhibited &&
    (StatusClientHold in st) == rev.clientHold &&
    (StatusClientDeleteProhibited in st) == rev.clientDeleteProhibited
  }

  predicate ServerFlagsMatch(st: seq<string>, rev: DomainRevision.DomainRevisionRecord)
  {
    (StatusServerUpdateProhibited in st) == rev.serverUpdateProhibited &&
    (StatusServerTransferProhibited in st) == rev.serverTransferProhibited &&
    (StatusServerRenewProhibited in st) == rev.serverRenewProhibited &&
    (StatusServerHold in st) == rev.serverHold &&
    (StatusServerDeleteProhibited in st) == rev.serverDeleteProhibited
  }

  function HostValues(hs: seq<DomainHost>): (r: seq<string>)
    ensures |r| == |hs| && forall k :: 0 <= k < |hs| ==> r[k] == hs[k].value
  {
    seq(|hs|, k requires 0 <= k < |hs| => hs[k].value)
  }

  /** The first element of `xs` that `ys` lacks. */
  function FirstAbsent(xs: seq<string>, ys: seq<string>): (r: Option<string>)
    ensures r.None? <==> forall k :: 0 <= k < |xs| ==> xs[k] in ys
    ensures r.Some? ==> r.value in xs && r.value !in ys
    decreases |xs|
  {
    if xs == [] then None
    else if xs[0] !in ys then Some(xs[0])
    else
      var r := FirstAbsent(xs[1..], ys);
      assert forall k :: 1 <= k < |xs| ==> xs[k] == xs[1..][k - 1];
      r
  }

  /**
   * The host check of the verdict: the counts differ, or the first
   * revision host the registry lacks, or the first registry host the
   * revision lacks; None when the lists agree.
   */
  function HostMismatch(revisionHosts: seq<string>, eppHosts: seq<string>): Option<string>
  {
    if |revisionHosts| != |eppHosts| then Some(EPPStatusHostMismatch)
    else if FirstAbsent(revisionHosts, eppHosts).Some? then
      Some("Missing Host: " + FirstAbsent(revisionHosts, eppHosts).value)
    else if FirstAbsent(eppHosts, revisionHosts).Some? then
      Some("Additional Host: " + FirstAbsent(eppHosts, revisionHosts).value)
    else None
  }

  /** The DS check of the verdict: a record to add, or else a record to remove. */
  function DSMismatch(registryDS: seq<DSData>, expectedDS: seq<DSData>): Option<string>
  {
    var cur, exp := KeyMap(registryDS), KeyMap(expectedDS);
    if Unexpected(exp, cur) != {} then Some(EPPStatusMissingDSRecords)
    else if Unexpected(cur, exp) != {} then Some(EPPStatusAdditionalDSRecords)
    else None
  }

  /**
   * The verdict on a domain against the registry's info response, first
   * failing check first: an incomplete response, a pending state, the
   * client flags, the hosts, the DS records, and last the server flags;
   * "Provisioned" when nothing differs.
   */
  function Verdict(rev: DomainRevision.DomainRevisionRecord, resp: Option<EppResponse.Response>): (bool, string)
  {
    if !HasDomainInfo(resp) then (false, VerdictInvalid)
    else
      var inf := resp.value.resultData.value.domainInf.value;
      var hosts := HostMismatch(rev.hostnames, HostValues(inf.nsHosts));
      var ds := DSMismatch(RegistryDS(resp.value), ExpectedDS(rev.dsDataEntries));
      if AnyPending(inf.status) then (false, VerdictPending)
      else if !ClientFlagsMatch(inf.status, rev) then (false, EPPStatusClientFlagMismatch)
      else if hosts.Some? then (false, hosts.value)
      else if ds.Some? then (false, ds.value)
      else if !ServerFlagsMatch(inf.status, rev) then (false, EPPStatusServerFlagsMismatch)
      else (true, EPPStatusProvisioned)
  }

  /** The host check passes exactly when the lists hold the same hosts, as many on each side. */
  lemma HostMismatchIff(revisionHosts: seq<string>, eppHosts: seq<string>)
    ensures HostMismatch(revisionHosts, eppHosts).None? <==> SameIdLists(revisionHosts, eppHosts)
    ensures HostMismatch(revisionHosts, eppHosts).Some? ==>
      HostMismatch(revisionHosts, eppHosts).value != EPPStatusProvisioned
  {
    var m := HostMismatch(revisionHosts, eppHosts);
    if FirstAbsent(revisionHosts, eppHosts).Some? {
      assert ("Missing Host: " + FirstAbsent(revisionHosts, eppHosts).value)[0] == 'M';
    }
    if FirstAbsent(eppHosts, revisionHosts).Some? {
      assert ("Additional Host: " + FirstAbsent(eppHosts, revisionHosts).value)[0] == 'A';
    }
  }

  /** The DS check passes exactly when both sides hold the same records. */
  lemma DSMismatchIff(registryDS: seq<DSData>, expectedDS: seq<DSData>)
    ensures DSMismatch(registryDS, expectedDS).None? <==> Elements(registryDS) == Elements(expectedDS)
  {
    UnexpectedIsDifference(expectedDS, registryDS);
    UnexpectedIsDifference(registryDS, expectedDS);
  }

  /**
   * A domain is reported provisioned exactly when the response is
   * complete, nothing is pending, all ten flags agree, both sides list as
   * many hosts and each host of either side is on the other, and both
   * hold the same DS records; the message is "Provisioned" exactly then.
   */
  lemma VerdictProvisionedIff(rev: DomainRevision.DomainRevisionRecord, resp: Option<EppResponse.Response>)
    ensures Verdict(rev, resp).0 <==>
      HasDomainInfo(resp) &&
      var inf := resp.value.resultData.value.domainInf.value;
      !AnyPending(inf.status) && ClientFlagsMatch(inf.status, rev) && ServerFlagsMatch(inf.status, rev) &&
      SameIdLists(rev.hostnames, HostValues(inf.nsHosts)) &&
      Elements(RegistryDS(resp.value)) == Elements(ExpectedDS(rev.dsDataEntries))
    ensures Verdict(rev, resp).0 <==> Verdict(rev, resp).1 == EPPStatusProvisioned
  {
    if HasDomainInfo(resp) {
      var inf := resp.value.resultData.value.domainInf.value;
      HostMismatchIff(rev.hostnames, HostValues(inf.nsHosts));
      DSMismatchIff(RegistryDS(resp.value), ExpectedDS(rev.dsDataEntries));
    }
  }

  /** The fifteen status flags the verdict loop collects. */
  datatype StatusFlags = StatusFlags(
    pendingCreate: bool, pendingDelete: bool, pendingRenew: bool, pendingTransfer: bool, pendingUpdate: bool,
    clientUpdate: bool, serverUpdate: bool, clientTransfer: bool, serverTransfer: bool,
    clientRenew: bool, serverRenew: bool, clientHold: bool, serverHold: bool,
    clientDelete: bool, serverDelete: bool)

  predicate FlagsFor(f: StatusFlags, st: seq<string>)
  {
    (f.pendingCreate <==> StatusPendingCreate in st) &&
    (f.pendingDelete <==> StatusPendingDelete in st) &&
    (f.pendingRenew <==> StatusPendingRenew in st) &&
    (f.pendingTransfer <==> StatusPendingTransfer in st) &&
    (f.pendingUpdate <==> StatusPendingUpdate in st) &&
    (f.clientUpdate <==> StatusClientUpdateProhibited in st) &&
    (f.serverUpdate <==> StatusServerUpdateProhibited in st) &&
    (f.clientTransfer <==> StatusClientTransferProhibited in st) &&
    (f.serverTransfer <==> StatusServerTransferProhibited in st) &&
    (f.clientRenew <==> StatusClientRenewProhibited in st) &&
    (f.serverRenew <==> StatusServerRenewProhibited in st) &&
    (f.clientHold <==> StatusClientHold in st) &&
    (f.serverHold <==> StatusServerHold in st) &&
    (f.clientDelete <==> StatusClientDeleteProhibited in st) &&
    (f.serverDelete <==> StatusServerDeleteProhibited in st)
  }

  /** The switch over one status value; its cases are distinct values,
      so each flag is set by its own status and by nothing else. */
  function SetFlag(f: StatusFlags, status: string): StatusFlags
  {
    StatusFlags(
      f.pendingCreate || status == StatusPendingCreate,
      f.pendingDelete || status == StatusPendingDelete,
      f.pendingRenew || status == StatusPendingRenew,
      f.pendingTransfer || status == StatusPendingTransfer,
      f.pendingUpdate || status == StatusPendingUpdate,
      f.clientUpdate || status == StatusClientUpdateProhibited,
      f.serverUpdate || status == StatusServerUpdateProhibited,
      f.clientTransfer || status == StatusClientTransferProhibited,
      f.serverTransfer || status == StatusServerTransferProhibited,
      f.clientRenew || status == StatusClientRenewProhibited,
      f.serverRenew || status == StatusServerRenewProhibited,
      f.clientHold || status == StatusClientHold,
      f.serverHold || status == StatusServerHold,
      f.clientDelete || status == StatusClientDeleteProhibited,
      f.serverDelete || status == StatusServerDeleteProhibited)
  }

  lemma SetFlagStep(f: StatusFlags, s: seq<string>, t: string)
    requires FlagsFor(f, s)
    ensures FlagsFor(SetFlag(f, t), s + [t])
  {
    assert forall x :: x in s + [t] <==> x in s || x == t;
  }

  lemma SetFlagStepAt(f: StatusFlags, statuses: seq<string>, i: int)
    requires 0 <= i < |statuses| && FlagsFor(f, statuses[..i])
    ensures FlagsFor(SetFlag(f, statuses[i]), statuses[..i + 1])
  {
    assert statuses[..i + 1] == statuses[..i] + [statuses[i]];
    SetFlagStep(f, statuses[..i], statuses[i]);
  }

  /** The status loop of EPPMatchesExpected. */
  method CollectFlags(statuses: seq<string>) returns (f: StatusFlags)
    ensures FlagsFor(f, statuses)
  {
    f := StatusFlags(false, false, false, false, false, false, false, false, false, false,
                     false, false, false, false, false);
    for i := 0 to |statuses|
      invariant FlagsFor(f, statuses[..i])
    {
      SetFlagStepAt(f, statuses, i);
      f := SetFlag(f, statuses[i]);
    }
    assert statuses[..|statuses|] == statuses;
  }

  lemma FlagsClassify(f: StatusFlags, st: seq<string>, rev: DomainRevision.DomainRevisionRecord)
    requires FlagsFor(f, st)
    ensures (f.pendingCreate || f.pendingDelete || f.pendingRenew || f.pendingTransfer || f.pendingUpdate) == AnyPending(st)
    ensures (f.clientUpdate == rev.clientUpdateProhibited && f.clientTransfer == rev.clientTransferProhibited &&
      f.clientRenew == rev.clientRenewProhibited && f.clientHold == rev.clientHold &&
      f.clientDelete == rev.clientDeleteProhibited) == ClientFlagsMatch(st, rev)
    ensures (f.serverUpdate == rev.serverUpdateProhibited && f.serverTransfer == rev.serverTransferProhibited &&
      f.serverRenew == rev.serverRenewProhibited && f.serverHold == rev.serverHold &&
      f.serverDelete == rev.serverDeleteProhibited) == ServerFlagsMatch(st, rev)
  {
  }

  /** The status loop and the flag comparisons of EPPMatchesExpected. */
  method ClassifyStatuses(statuses: seq<string>, rev: DomainRevision.DomainRevisionRecord)
    returns (pending: bool, clientOk: bool, serverOk: bool)
    ensures pending == AnyPending(statuses)
    ensures clientOk == ClientFlagsMatch(statuses, rev) && serverOk == ServerFlagsMatch(statuses, rev)
  {
    var f := CollectFlags(statuses);
    FlagsClassify(f, statuses, rev);
    pending := f.pendingCreate || f.pendingDelete || f.pendingRenew || f.pendingTransfer || f.pendingUpdate;
    clientOk := f.clientUpdate == rev.clientUpdateProhibited && f.clientTransfer == rev.clientTransferProhibited &&
      f.clientRenew == rev.clientRenewProhibited && f.clientHold == rev.clientHold &&
      f.clientDelete == rev.clientDeleteProhibited;
    serverOk := f.serverUpdate == rev.serverUpdateProhibited && f.serverTransfer == rev.serverTransferProhibited &&
      f.serverRenew == rev.serverRenewProhibited && f.serverHold == rev.serverHold &&
      f.serverDelete == rev.serverDeleteProhibited;
  }

  /** The loop collecting the registry's host names. */
  method EppHostNames(nsHosts: seq<DomainHost>) returns (eppHosts: seq<string>)
    ensures eppHosts == HostValues(nsHosts)
  {
    eppHosts := [];
    for i := 0 to |nsHosts|
      invariant eppHosts == HostValues(nsHosts[..i])
    {
      eppHosts := eppHosts + [nsHosts[i].value];
    }
    assert nsHosts[..|nsHosts|] == nsHosts;
  }

  /** The found loop over the other host list. */
  method FindHost(h: string, hosts: seq<string>) returns (found: bool)
    ensures found <==> h in hosts
  {
    found := false;
    for j := 0 to |hosts|
      invariant found <==> h in hosts[..j]
    {
      assert hosts[..j + 1] == hosts[..j] + [hosts[j]];
      if h == hosts[j] {
        found := true;
        assert h in hosts[..j + 1];
        break;
      }
    }
    assert found || hosts[..|hosts|] == hosts;
  }

  /** One direction of the host check: the first host of `xs` that `ys` lacks. */
  method FirstMissingHost(xs: seq<string>, ys: seq<string>) returns (r: Option<string>)
    ensures r == FirstAbsent(xs, ys)
  {
    for i := 0 to |xs|
      invariant FirstAbsent(xs, ys) == FirstAbsent(xs[i..], ys)
    {
      var found := FindHost(xs[i], ys);
      assert xs[i..][0] == xs[i] && xs[i..][1..] == xs[i + 1..];
      if !found {
        return Some(xs[i]);
      }
    }
    return None;
  }

  // ---------------------------------------------------------------------
  // The domain object

  const ErrHoldReasonRequired: string := "a hold reason must be set"

  const ClientDeleteFlag: string := "ClientDelete"
  const ServerDeleteFlag: string := "ServerDelete"
  const ClientTransferFlag: string := "ClientTransfer"
  const ServerTransferFlag: string := "ServerTransfer"
  const ClientUpdateFlag: string := "ClientUpdate"
  const ServerUpdateFlag: string := "ServerUpdate"
  const ClientRenewFlag: string := "ClientRenew"
  const ServerRenewFlag: string := "ServerRenew"
  const ClientHoldFlag: string := "ClientHold"
  const ServerHoldFlag: string := "ServerHold"

  /** A registrar domain: its state, current revision, WHOIS statuses and hold state (times in Unix seconds). */
  class Domain {
    const id: int
    var state: string
    var domainName: string
    var hasCurrentRevision: bool
    var currentRevision: DomainRevision.DomainRevisionRecord
    var whoisStatuses: string
    var holdActive: bool
    var holdBy: string
    var holdAt: int
    var holdReason: string

    predicate HoldConsistent()
      reads this
    {
      (holdActive ==> holdReason != "") && (!holdActive ==> holdReason == "" && holdBy == "" && holdAt == 0)
    }

    constructor (id: int, state: string, domainName: string)
      ensures this.id == id && this.state == state && this.domainName == domainName
      ensures !hasCurrentRevision && whoisStatuses == "" && !holdActive && HoldConsistent()
    {
      this.id := id;
      this.state := state;
      this.domainName := domainName;
      hasCurrentRevision := false;
      currentRevision := DomainRevision.DomainRevisionRecord(0, 0, "", "", "", [], [],
        false, false, false, false, false, false, false, false, false, false);
      whoisStatuses := "";
      holdActive := false;
      holdBy := "";
      holdAt := 0;
      holdReason := "";
    }

    /** IsEditable: a domain can be edited while it is new. */
    predicate IsEditable()
      reads this
    {
      state == StateNew || state == StateNewExternal
    }

    /** SuggestedRevisionBool: the flag or choice a new revision starts from. */
    function SuggestedRevisionBool(field: string): bool
      reads this
    {
      if hasCurrentRevision then
        var rev := currentRevision;
        if field == ClientDeleteFlag then rev.clientDeleteProhibited
        else if field == ServerDeleteFlag then rev.serverDeleteProhibited
        else if field == ClientRenewFlag then rev.clientRenewProhibited
        else if field == ServerRenewFlag then rev.serverRenewProhibited
        else if field == ClientHoldFlag then rev.clientHold
        else if field == ServerHoldFlag then rev.serverHold
        else if field == ClientTransferFlag then rev.clientTransferProhibited
        else if field == ServerTransferFlag then rev.serverTransferProhibited
        else if field == ClientUpdateFlag then rev.clientUpdateProhibited
        else if field == ServerUpdateFlag then rev.serverUpdateProhibited
        else if field == DesiredStateActive then rev.desiredState == StateActive
        else if field == DesiredStateInactive then rev.desiredState == StateInactive
        else if field == DesiredStateExternal then rev.desiredState == StateExternal
        else if field == DomainRevision.DomainClassHighValue then rev.domainClass == DomainRevision.DomainClassHighValue
        else if field == DomainRevision.DomainClassInUse then rev.domainClass == DomainRevision.DomainClassInUse
        else if field == DomainRevision.DomainClassParked then rev.domainClass == DomainRevision.DomainClassParked
        else if field == DomainRevision.DomainClassOther then
          rev.domainClass != DomainRevision.DomainClassHighValue &&
          rev.domainClass != DomainRevision.DomainClassInUse &&
          rev.domainClass != DomainRevision.DomainClassParked
        else false
      else
        if field == DesiredStateExternal then state == StateNewExternal
        else if field == DesiredStateActive then state != StateNewExternal
        else field == DomainRevision.DomainClassParked
    }

    /**
     * WHOISHasStatus: some newline-separated WHOIS status equals `status`
     * ignoring case.
     */
    method WHOISHasStatus(status: string) returns (r: bool)
      ensures r <==> exists k :: 0 <= k < |Split(whoisStatuses, '\n')| && EqualFold(status, Split(whoisStatuses, '\n')[k])
    {
      var statuses := Split(whoisStatuses, '\n');
      for i := 0 to |statuses|
        invariant forall k :: 0 <= k < i ==> !EqualFold(status, statuses[k])
      {
        if EqualFold(status, statuses[i]) {
          assert statuses == Split(whoisStatuses, '\n');
          assert 0 <= i < |statuses| && EqualFold(status, statuses[i]);
          return true;
        }
      }
      return false;
    }

    /**
     * UpdateHoldStatus: releasing clears the hold; holding needs a reason,
     * and without one the domain is left as it was and an error returned.
     */
    method UpdateHoldStatus(active: bool, reason: string, holder: string, now: int) returns (err: Option<string>)
      modifies this
      ensures err.Some? <==> active && reason == ""
      ensures err.Some? ==>
        err.value == ErrHoldReasonRequired &&
        holdActive == old(holdActive) && holdBy == old(holdBy) && holdAt == old(holdAt) && holdReason == old(holdReason)
      ensures !active ==> !holdActive && holdReason == "" && holdBy == "" && holdAt == 0
      ensures err.None? && active ==> holdActive && holdBy == holder && holdAt == now && holdReason == reason
      ensures err.None? ==> HoldConsistent()
      ensures state == old(state) && domainName == old(domainName) && hasCurrentRevision == old(hasCurrentRevision)
      ensures currentRevision == old(currentRevision) && whoisStatuses == old(whoisStatuses)
    {
      if !active {
        holdActive := false;
        holdAt := 0;
        holdReason := "";
        holdBy := "";
      } else {
        if |reason| == 0 {
          return Some(ErrHoldReasonRequired);
        }
        holdActive := true;
        holdAt := now;
        holdBy := holder;
        holdReason := reason;
      }
      return None;
    }

    /** EPPMatchesExpected: the verdict on this domain's current revision. */
    method EPPMatchesExpected(resp: Option<EppResponse.Response>) returns (ok: bool, state: string)
      ensures (ok, state) == Verdict(currentRevision, resp)
    {
      if !HasDomainInfo(resp) {
        return false, VerdictInvalid;
      }
      var inf := resp.value.resultData.value.domainInf.value;
      var rev := currentRevision;
      var pending, clientOk, serverOk := ClassifyStatuses(inf.status, rev);
      if pending {
        return false, VerdictPending;
      }
      if !clientOk {
        return false, EPPStatusClientFlagMismatch;
      }
      var eppHosts := EppHostNames(inf.nsHosts);
      var revisionHosts := CopyHosts(rev.hostnames);
      var hostErr := CheckHosts(revisionHosts, eppHosts);
      if hostErr.Some? {
        return false, hostErr.value;
      }
      var dsErr := CheckDS(resp, rev.dsDataEntries);
      if dsErr.Some? {
        return false, dsErr.value;
      }
      if !serverOk {
        return false, EPPStatusServerFlagsMismatch;
      }
      return true, EPPStatusProvisioned;
    }
  }

  /** The host comparison of EPPMatchesExpected. */
  method CheckHosts(revisionHosts: seq<string>, eppHosts: seq<string>) returns (r: Option<string>)
    ensures r == HostMismatch(revisionHosts, eppHosts)
  {
    if |revisionHosts| != |eppHosts| {
      return Some(EPPStatusHostMismatch);
    }
    var missing := FirstMissingHost(revisionHosts, eppHosts);
    if missing.Some? {
      return Some("Missing Host: " + missing.value);
    }
    var additional := FirstMissingHost(eppHosts, revisionHosts);
    if additional.Some? {
      return Some("Additional Host: " + additional.value);
    }
    return None;
  }

  /** The DS comparison of EPPMatchesExpected, through DiffDomainDSData. */
  method CheckDS(resp: Option<EppResponse.Response>, entries: seq<DomainRevision.DSData>) returns (r: Option<string>)
    requires resp.Some?
    ensures r == DSMismatch(RegistryDS(resp.value), ExpectedDS(entries))
  {
    var diff := DiffDomainDSData(resp, entries);
    var changes := diff.value;
    if |changes.addDSRecords| != 0 {
      assert changes.addDSRecords[0] in Elements(changes.addDSRecords);
      return Some(EPPStatusMissingDSRecords);
    }
    if |changes.remDSRecords| != 0 {
      assert changes.remDSRecords[0] in Elements(changes.remDSRecords);
      return Some(EPPStatusAdditionalDSRecords);
    }
    return None;
  }

  /** The hostname loop over the revision's hosts. */
  method CopyHosts(hosts: seq<string>) returns (out: seq<string>)
    ensures out == hosts
  {
    out := [];
    for i := 0 to |hosts|
      invariant out == hosts[..i]
    {
      out := out + [hosts[i]];
    }
    assert hosts[..|hosts|] == hosts;
  }

  /**
   * For a domain without a current revision, a new revision starts out
   * parked and external exactly when the domain was created as external;
   * a new domain is editable.
   */
  lemma SuggestedWithoutRevision(d: Domain, field: string)
    requires !d.hasCurrentRevision
    ensures d.SuggestedRevisionBool(field) <==>
      field == DomainRevision.DomainClassParked ||
      (field == DesiredStateExternal && d.state == StateNewExternal) ||
      (field == DesiredStateActive && d.state != StateNewExternal)
    ensures d.SuggestedRevisionBool(DesiredStateActive) != d.SuggestedRevisionBool(DesiredStateExternal)
    ensures !d.SuggestedRevisionBool(DesiredStateInactive) && !d.SuggestedRevisionBool(ClientHoldFlag)
    ensures d.state in {StateNew, StateNewExternal} ==> d.IsEditable()
  {
  }

  /** With a current revision, exactly one of the four domain classes is suggested. */
  lemma SuggestedClassExactlyOne(d: Domain)
    requires d.hasCurrentRevision
    ensures var n := (if d.SuggestedRevisionBool(DomainRevision.DomainClassHighValue) then 1 else 0) +
                     (if d.SuggestedRevisionBool(DomainRevision.DomainClassInUse) then 1 else 0) +
                     (if d.SuggestedRevisionBool(DomainRevision.DomainClassParked) then 1 else 0) +
                     (if d.SuggestedRevisionBool(DomainRevision.DomainClassOther) then 1 else 0);
      n == 1
    ensures d.SuggestedRevisionBool(DomainRevision.DomainClassOther) <==>
      !DomainRevision.IsNamedClass(d.currentRevision.domainClass)
  {
  }

  /** Case does not matter to the WHOIS status lookup. */
  lemma WHOISStatusIgnoresCase(a: string, b: string, flag: string)
    requires ToUpper(a) == ToUpper(b)
    ensures EqualFold(a, flag) <==> EqualFold(b, flag)
  {
  }

  // ---------------------------------------------------------------------
  // DSDataEntryEpp formatters

  /** A DS entry as the domain object stores it. */
  datatype DSDataEntryEpp = DSDataEntryEpp(id: int, domainID: int, keyTag: int, algorithm: int,
                                           digestType: int, digest: string)

  /** FormValue: "%d:%d:%d:%s". */
  function FormValue(ds: DSDataEntryEpp): string
  {
    IntToString(ds.keyTag) + ":" + IntToString(ds.algorithm) + ":" + IntToString(ds.digestType) + ":" + ds.digest
  }

  /** DisplayName is the form value. */
  function DisplayName(ds: DSDataEntryEpp): string
  {
    FormValue(ds)
  }

  /** FormDivName: "%d-%d-%d-%s". */
  function FormDivName(ds: DSDataEntryEpp): string
  {
    IntToString(ds.keyTag) + "-" + IntToString(ds.algorithm) + "-" + IntToString(ds.digestType) + "-" + ds.digest
  }

  function AsRevisionEntry(ds: DSDataEntryEpp): DomainRevision.DSData
  {
    DomainRevision.DSData(0, 0, ds.keyTag, ds.algorithm, ds.digestType, ds.digest)
  }

  /**
   * A stored DS entry is written as a revision's entry is and as the
   * DS diff files it, so a valid one reads back through the revision's
   * form parser; distinct entries have distinct form values.
   */
  lemma EppEntryRoundTrip(ds: DSDataEntryEpp)
    ensures FormValue(ds) == DomainRevision.FormValue(AsRevisionEntry(ds))
    ensures FormDivName(ds) == DomainRevision.FormDivName(AsRevisionEntry(ds))
    ensures DisplayName(ds) == FormValue(ds)
    ensures FormValue(ds) == DSKey(EppDSOf(AsRevisionEntry(ds)))
    ensures DomainRevision.ValidDS(AsRevisionEntry(ds)) ==>
      DomainRevision.ParseDSForm(FormValue(ds)) == Ok(AsRevisionEntry(ds))
  {
    if DomainRevision.ValidDS(AsRevisionEntry(ds)) {
      DomainRevision.ParseOfFormValue(AsRevisionEntry(ds));
    }
  }

  lemma EppEntryFormValueInjective(a: DSDataEntryEpp, b: DSDataEntryEpp)
    requires FormValue(a) == FormValue(b)
    ensures a.keyTag == b.keyTag && a.algorithm == b.algorithm && a.digestType == b.digestType && a.digest == b.digest
  {
    DSKeyInjective(EppDSOf(AsRevisionEntry(a)), EppDSOf(AsRevisionEntry(b)));
  }
}
