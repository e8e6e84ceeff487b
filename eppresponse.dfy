// EPP <response> messages (epp/response.go): result-code classes of
// section 3 of RFC 5730, the classification of a response by the typed
// result data it carries, and the conversion of generic (namespace-less)
// result data into typed domain, host and contact data.

module EppResponse {
  import opened Common
  import opened EppBase

  const ErrNotDomainResponse: string := "not domain response"
  const ErrNotHostResponse: string := "not host response"
  const ErrNotContactResponse: string := "not contact response"

  // ---------------------------------------------------------------------
  // Info data

  datatype Disclose = Disclose(flag: int, names: seq<string>, orgs: seq<string>, addresses: seq<string>,
                               voice: string, fax: string, email: string)

  /** An info response as received, before its namespace is known. */
  datatype GenericInfDataResp = GenericInfDataResp(
    xmlnsDomain: string, xmlnsHost: string, xmlnsContact: string, schemaLocation: string,
    name: string, id: string, roid: string, status: seq<string>, registrantID: string,
    contacts: seq<GenericContact>, nsHosts: seq<string>, hostAddrs: seq<GenericHostAddr>, hosts: seq<string>,
    clientID: string, createID: string, createDate: string, expireDate: string,
    updateID: string, updateDate: string, transferDate: string,
    voice: GenericPhone, fax: GenericPhone, authPW: string, email: string,
    disclose: Option<Disclose>, postalInfos: seq<GenericPostalInfo>)

  datatype DomainInfDataResp = DomainInfDataResp(
    xmlnsDomain: string, schemaLocation: string, name: string, roid: string,
    status: seq<string>, registrantID: string, contacts: seq<DomainContact>,
    nsHosts: seq<DomainHost>, hosts: seq<string>,
    clientID: string, createID: string, createDate: string,
    updateID: string, updateDate: string, expireDate: string, transferDate: string,
    authPW: Option<string>)

  datatype HostInfDataResp = HostInfDataResp(
    xmlnsHost: string, schemaLocation: string, name: string, roid: string,
    status: seq<string>, addresses: seq<HostAddress>,
    clientID: string, createID: string, createDate: string,
    updateID: string, updateDate: string, transferDate: string)

  datatype ContactInfDataResp = ContactInfDataResp(
    xmlnsContact: string, schemaLocation: string, id: string, roid: string,
    status: seq<string>, postalInfos: seq<PostalInfo>,
    voice: PhoneNumber, fax: PhoneNumber, email: string,
    clientID: string, createID: string, createDate: string,
    updateID: string, updateDate: string, transferDate: string,
    authPW: Option<string>, disclose: Option<Disclose>)

  /** The password pointer of a typed info: absent exactly for "". */
  function AuthOf(pw: string): (r: Option<string>)
    ensures r.None? <==> pw == ""
    ensures r.Some? ==> r.value == pw
  {
    if pw != "" then Some(pw) else None
  }

  /** The domain data a generic info is copied into. */
  function DomainInfOf(g: GenericInfDataResp): DomainInfDataResp
  {
    DomainInfDataResp(g.xmlnsDomain, g.schemaLocation, g.name, g.roid, g.status, g.registrantID,
      KnownContacts(g.contacts), DomainHostsOf(g.nsHosts), g.hosts,
      g.clientID, g.createID, g.createDate, g.updateID, g.updateDate, g.expireDate, g.transferDate,
      AuthOf(g.authPW))
  }

  function HostInfOf(g: GenericInfDataResp): HostInfDataResp
  {
    HostInfDataResp(g.xmlnsHost, g.schemaLocation, g.name, g.roid, g.status, HostAddressesOf(g.hostAddrs),
      g.clientID, g.createID, g.createDate, g.updateID, g.updateDate, g.transferDate)
  }

  function ContactInfOf(g: GenericInfDataResp): ContactInfDataResp
  {
    ContactInfDataResp(g.xmlnsContact, g.schemaLocation, g.id, g.roid, g.status, PostalInfosOf(g.postalInfos),
      PhoneOf(g.voice), PhoneOf(g.fax), g.email,
      g.clientID, g.createID, g.createDate, g.updateID, g.updateDate, g.transferDate,
      AuthOf(g.authPW), g.disclose)
  }

  /** GenericInfDataResp.ToDomainInfDataResp: fails exactly without a domain namespace. */
  method ToDomainInfDataResp(g: GenericInfDataResp) returns (r: Result<DomainInfDataResp>)
    ensures r.Ok? <==> g.xmlnsDomain != ""
    ensures r.Ok? ==> r.value == DomainInfOf(g)
    ensures r.Err? ==> r.msg == ErrNotDomainResponse
  {
    if g.xmlnsDomain == "" {
      return Err(ErrNotDomainResponse);
    }
    var nsHosts: seq<DomainHost> := [];
    for i := 0 to |g.nsHosts|
      invariant nsHosts == DomainHostsOf(g.nsHosts[..i])
    {
      nsHosts := nsHosts + [DomainHost(g.nsHosts[i])];
    }
    assert g.nsHosts[..|g.nsHosts|] == g.nsHosts;
    var status: seq<string> := [];
    for i := 0 to |g.status|
      invariant status == g.status[..i]
    {
      status := status + [g.status[i]];
    }
    assert g.status[..|g.status|] == g.status;
    var contacts: seq<DomainContact> := [];
    for i := 0 to |g.contacts|
      invariant contacts == KnownContacts(g.contacts[..i])
    {
      var ct := ContactTypeFromString(g.contacts[i].contactType);
      assert g.contacts[..i + 1][..i] == g.contacts[..i];
      if ct.Ok? {
        contacts := contacts + [DomainContact(ct.value, g.contacts[i].value)];
      }
    }
    assert g.contacts[..|g.contacts|] == g.contacts;
    var auth: Option<string> := None;
    if g.authPW != "" {
      auth := Some(g.authPW);
    }
    r := Ok(DomainInfDataResp(g.xmlnsDomain, g.schemaLocation, g.name, g.roid, status, g.registrantID,
      contacts, nsHosts, [] + g.hosts,
      g.clientID, g.createID, g.createDate, g.updateID, g.updateDate, g.expireDate, g.transferDate, auth));
  }

  /** GenericInfDataResp.ToHostInfDataResp: fails exactly without a host namespace. */
  method ToHostInfDataResp(g: GenericInfDataResp) returns (r: Result<HostInfDataResp>)
    ensures r.Ok? <==> g.xmlnsHost != ""
    ensures r.Ok? ==> r.value == HostInfOf(g)
    ensures r.Err? ==> r.msg == ErrNotHostResponse
  {
    if g.xmlnsHost == "" {
      return Err(ErrNotHostResponse);
    }
    var status: seq<string> := [];
    for i := 0 to |g.status|
      invariant status == g.status[..i]
    {
      status := status + [g.status[i]];
    }
    assert g.status[..|g.status|] == g.status;
    var addresses: seq<HostAddress> := [];
    for i := 0 to |g.hostAddrs|
      invariant addresses == HostAddressesOf(g.hostAddrs[..i])
    {
      addresses := addresses + [HostAddress(g.hostAddrs[i].ipVersion, g.hostAddrs[i].address)];
    }
    assert g.hostAddrs[..|g.hostAddrs|] == g.hostAddrs;
    r := Ok(HostInfDataResp(g.xmlnsHost, g.schemaLocation, g.name, g.roid, status, addresses,
      g.clientID, g.createID, g.createDate, g.updateID, g.updateDate, g.transferDate));
  }

  /** GenericInfDataResp.ToContactInfDataResp: fails exactly without a contact namespace. */
  method ToContactInfDataResp(g: GenericInfDataResp) returns (r: Result<ContactInfDataResp>)
    ensures r.Ok? <==> g.xmlnsContact != ""
    ensures r.Ok? ==> r.value == ContactInfOf(g)
    ensures r.Err? ==> r.msg == ErrNotContactResponse
  {
    if g.xmlnsContact == "" {
      return Err(ErrNotContactResponse);
    }
    var auth: Option<string> := None;
    if g.authPW != "" {
      auth := Some(g.authPW);
    }
    var status: seq<string> := [];
    for i := 0 to |g.status|
      invariant status == g.status[..i]
    {
      status := status + [g.status[i]];
    }
    assert g.status[..|g.status|] == g.status;
    var infos: seq<PostalInfo> := [];
    for i := 0 to |g.postalInfos|
      invariant infos == PostalInfosOf(g.postalInfos[..i])
    {
      infos := infos + [PostalInfoOf(g.postalInfos[i])];
    }
    assert g.postalInfos[..|g.postalInfos|] == g.postalInfos;
    r := Ok(ContactInfDataResp(g.xmlnsContact, g.schemaLocation, g.id, g.roid, status, infos,
      PhoneNumber(g.voice.number, g.voice.extension), PhoneNumber(g.fax.number, g.fax.extension), g.email,
      g.clientID, g.createID, g.createDate, g.updateID, g.updateDate, g.transferDate, auth, g.disclose));
  }

  /**
   * The typed domain data keeps the hosts, name servers and statuses of
   * the generic data in order, and keeps a contact only when its type is
   * recognised.
   */
  lemma DomainInfKeepsOrder(g: GenericInfDataResp)
    ensures var d := DomainInfOf(g);
      d.hosts == g.hosts && d.status == g.status &&
      |d.nsHosts| == |g.nsHosts| && (forall i :: 0 <= i < |g.nsHosts| ==> d.nsHosts[i].value == g.nsHosts[i]) &&
      |d.contacts| <= |g.contacts| &&
      (forall c :: c in d.contacts ==>
        exists gc :: gc in g.contacts && ContactTypeFromString(gc.contactType) == Ok(c.contactType) && gc.value == c.value) &&
      ((forall i :: 0 <= i < |g.contacts| ==> ContactTypeFromString(g.contacts[i].contactType).Ok?) ==>
        |d.contacts| == |g.contacts|)
  {
    KnownContactsSound(g.contacts);
  }

  /** GetObjectType: domain before host before contact, "" for none. */
  function GetObjectType(g: GenericInfDataResp): (r: string)
    ensures r == "domain" <==> g.xmlnsDomain != ""
    ensures r == "host" <==> g.xmlnsDomain == "" && g.xmlnsHost != ""
    ensures r == "contact" <==> g.xmlnsDomain == "" && g.xmlnsHost == "" && g.xmlnsContact != ""
    ensures r == "" <==> g.xmlnsDomain == "" && g.xmlnsHost == "" && g.xmlnsContact == ""
  {
    if g.xmlnsDomain != "" then "domain"
    else if g.xmlnsHost != "" then "host"
    else if g.xmlnsContact != "" then "contact"
    else ""
  }

  // ---------------------------------------------------------------------
  // Check, create, renew and transfer data

  datatype CheckValue = CheckValue(available: int, value: string)
  datatype CheckValueUntyped = CheckValueUntyped(name: CheckValue, id: CheckValue, reason: string)
  datatype GenericChkDataResp = GenericChkDataResp(xmlnsDomain: string, xmlnsHost: string, xmlnsContact: string,
                                                   items: seq<CheckValueUntyped>)
  datatype CheckDomain = CheckDomain(name: CheckValue, reason: string)
  datatype DomainChkDataResp = DomainChkDataResp(xmlns: string, schemaLocation: string, domains: seq<CheckDomain>)
  datatype HostChkDataResp = HostChkDataResp(xmlns: string, schemaLocation: string, hosts: seq<CheckValue>)
  datatype ContactChkDataResp = ContactChkDataResp(xmlns: string, schemaLocation: string, contactIDs: seq<CheckValue>)

  datatype GenericCreDataResp = GenericCreDataResp(xmlnsDomain: string, xmlnsHost: string, xmlnsContact: string,
                                                   schemaLocation: string, name: string, id: string,
                                                   createDate: string, expireDate: string)
  datatype DomainCreDataResp = DomainCreDataResp(xmlnsDomain: string, schemaLocation: string, name: string,
                                                 createDate: string, expireDate: string)
  datatype HostCreDataResp = HostCreDataResp(xmlnsHost: string, schemaLocation: string, name: string, createDate: string)
  datatype ContactCreDataResp = ContactCreDataResp(xmlnsContact: string, schemaLocation: string, id: string, createDate: string)

  datatype GenericRenDataResp = GenericRenDataResp(xmlnsDomain: string, schemaLocation: string, name: string, expireDate: string)
  datatype DomainRenDataResp = DomainRenDataResp(xmlnsDomain: string, schemaLocation: string, name: string, expireDate: string)

  datatype GenericTrnDataResp = GenericTrnDataResp(xmlnsDomain: string, xmlnsContact: string, schemaLocation: string,
                                                   name: string, id: string, trStatus: string, reID: string, reDate: string,
                                                   acID: string, acDate: string, expireDate: string)
  datatype DomainTrnDataResp = DomainTrnDataResp(xmlnsDomain: string, schemaLocation: string, name: string,
                                                 trStatus: string, reID: string, reDate: string,
                                                 acID: string, acDate: string, expireDate: string)
  datatype ContactTrnDataResp = ContactTrnDataResp(xmlnsContact: string, schemaLocation: string, id: string,
                                                   trStatus: string, reID: string, reDate: string,
                                                   acID: string, acDate: string)

  /** Result data: the generic slots a response is decoded into and the typed slots. */
  datatype ResultData = ResultData(
    genericChk: Option<GenericChkDataResp>, genericCre: Option<GenericCreDataResp>,
    genericInf: Option<GenericInfDataResp>, genericRen: Option<GenericRenDataResp>,
    genericTrn: Option<GenericTrnDataResp>,
    domainChk: Option<DomainChkDataResp>, domainCre: Option<DomainCreDataResp>,
    domainInf: Option<DomainInfDataResp>, domainRen: Option<DomainRenDataResp>,
    domainTrn: Option<DomainTrnDataResp>,
    hostChk: Option<HostChkDataResp>, hostCre: Option<HostCreDataResp>, hostInf: Option<HostInfDataResp>,
    contactChk: Option<ContactChkDataResp>, contactCre: Option<ContactCreDataResp>,
    contactInf: Option<ContactInfDataResp>, contactTrn: Option<ContactTrnDataResp>)

  const EmptyResultData: ResultData := ResultData(None, None, None, None, None, None, None, None, None, None,
                                                  None, None, None, None, None, None, None)

  // ---------------------------------------------------------------------
  // Message types

  const ResponseType: string := "epp.response"
  const ResponseDomainCheckType: string := "epp.response.domain.check"
  const ResponseDomainCreateType: string := "epp.response.domain.create"
  const ResponseDomainInfoType: string := "epp.response.domain.info"
  const ResponseDomainRenewType: string := "epp.response.domain.renew"
  const ResponseDomainTransferType: string := "epp.response.domain.transfer"
  const ResponseHostCheckType: string := "epp.response.host.check"
  const ResponseHostCreateType: string := "epp.response.host.create"
  const ResponseHostInfoType: string := "epp.response.host.info"
  const ResponseContactCheckType: string := "epp.response.contact.check"
  const ResponseContactCreateType: string := "epp.response.contact.create"
  const ResponseContactInfoType: string := "epp.response.contact.info"
  const ResponseContactTransferType: string := "epp.response.contact.transfer"

  /** The twelve typed slots of result data. */
  datatype TypedSlot =
    | SlotDomainChk | SlotDomainCre | SlotDomainInf | SlotDomainRen | SlotDomainTrn
    | SlotHostChk | SlotHostCre | SlotHostInf
    | SlotContactChk | SlotContactCre | SlotContactInf | SlotContactTrn

  function SlotMessageType(s: TypedSlot): string
  {
    match s
    case SlotDomainChk => ResponseDomainCheckType
    case SlotDomainCre => ResponseDomainCreateType
    case SlotDomainInf => ResponseDomainInfoType
    case SlotDomainRen => ResponseDomainRenewType
    case SlotDomainTrn => ResponseDomainTransferType
    case SlotHostChk => ResponseHostCheckType
    case SlotHostCre => ResponseHostCreateType
    case SlotHostInf => ResponseHostInfoType
    case SlotContactChk => ResponseContactCheckType
    case SlotContactCre => ResponseContactCreateType
    case SlotContactInf => ResponseContactInfoType
    case SlotContactTrn => ResponseContactTransferType
  }

  function If(b: bool, s: TypedSlot): seq<TypedSlot> { if b then [s] else [] }

  /** The typed slots that are set, in declaration order. */
  function TypedSlots(r: ResultData): seq<TypedSlot>
  {
    DomainSlots(r) + HostSlots(r) + ContactSlots(r)
  }

  function DomainSlots(r: ResultData): (t: seq<TypedSlot>)
    ensures |t| == 0 <==> !(r.domainChk.Some? || r.domainCre.Some? || r.domainInf.Some? || r.domainRen.Some? || r.domainTrn.Some?)
  {
    If(r.domainChk.Some?, SlotDomainChk) + If(r.domainCre.Some?, SlotDomainCre) +
    If(r.domainInf.Some?, SlotDomainInf) + If(r.domainRen.Some?, SlotDomainRen) +
    If(r.domainTrn.Some?, SlotDomainTrn)
  }

  function HostSlots(r: ResultData): (t: seq<TypedSlot>)
    ensures |t| == 0 <==> !(r.hostChk.Some? || r.hostCre.Some? || r.hostInf.Some?)
  {
    If(r.hostChk.Some?, SlotHostChk) + If(r.hostCre.Some?, SlotHostCre) + If(r.hostInf.Some?, SlotHostInf)
  }

  function ContactSlots(r: ResultData): (t: seq<TypedSlot>)
    ensures |t| == 0 <==> !(r.contactChk.Some? || r.contactCre.Some? || r.contactInf.Some? || r.contactTrn.Some?)
  {
    If(r.contactChk.Some?, SlotContactChk) + If(r.contactCre.Some?, SlotContactCre) +
    If(r.contactInf.Some?, SlotContactInf) + If(r.contactTrn.Some?, SlotContactTrn)
  }

  /**
   * ResultData.MessageType: the specific type of the one typed slot when
   * exactly one is set, and the plain response type otherwise.
   */
  function ResultDataMessageType(r: ResultData): (m: string)
    ensures |TypedSlots(r)| == 1 ==> m == SlotMessageType(TypedSlots(r)[0])
    ensures |TypedSlots(r)| != 1 ==> m == ResponseType
  {
    var isDomain := r.domainChk.Some? || r.domainCre.Some? || r.domainInf.Some? || r.domainRen.Some? || r.domainTrn.Some?;
    var isHost := r.hostChk.Some? || r.hostCre.Some? || r.hostInf.Some?;
    var isContact := r.contactChk.Some? || r.contactCre.Some? || r.contactInf.Some? || r.contactTrn.Some?;
    if isDomain && !isHost && !isContact && r.domainChk.Some? && r.domainCre.None? && r.domainInf.None? && r.domainRen.None? && r.domainTrn.None? then ResponseDomainCheckType
    else if isDomain && !isHost && !isContact && r.domainChk.None? && r.domainCre.Some? && r.domainInf.None? && r.domainRen.None? && r.domainTrn.None? then ResponseDomainCreateType
    else if isDomain && !isHost && !isContact && r.domainChk.None? && r.domainCre.None? && r.domainInf.Some? && r.domainRen.None? && r.domainTrn.None? then ResponseDomainInfoType
    else if isDomain && !isHost && !isContact && r.domainChk.None? && r.domainCre.None? && r.domainInf.None? && r.domainRen.Some? && r.domainTrn.None? then ResponseDomainRenewType
    else if isDomain && !isHost && !isContact && r.domainChk.None? && r.domainCre.None? && r.domainInf.None? && r.domainRen.None? && r.domainTrn.Some? then ResponseDomainTransferType
    else if !isDomain && isHost && !isContact && r.hostChk.Some? && r.hostCre.None? && r.hostInf.None? then ResponseHostCheckType
    else if !isDomain && isHost && !isContact && r.hostChk.None? && r.hostCre.Some? && r.hostInf.None? then ResponseHostCreateType
    else if !isDomain && isHost && !isContact && r.hostChk.None? && r.hostCre.None? && r.hostInf.Some? then ResponseHostInfoType
    else if !isDomain && !isHost && isContact && r.contactChk.Some? && r.contactCre.None? && r.contactInf.None? && r.contactTrn.None? then ResponseContactCheckType
    else if !isDomain && !isHost && isContact && r.contactChk.None? && r.contactCre.Some? && r.contactInf.None? && r.contactTrn.None? then ResponseContactCreateType
    else if !isDomain && !isHost && isContact && r.contactChk.None? && r.contactCre.None? && r.contactInf.Some? && r.contactTrn.None? then ResponseContactInfoType
    else if !isDomain && !isHost && isContact && r.contactChk.None? && r.contactCre.None? && r.contactInf.None? && r.contactTrn.Some? then ResponseContactTransferType
    else ResponseType
  }

  // ---------------------------------------------------------------------
  // Conversion of generic result data

  function CheckDomainsOf(items: seq<CheckValueUntyped>): (r: seq<CheckDomain>)
    ensures |r| == |items| && forall i :: 0 <= i < |items| ==> r[i] == CheckDomain(items[i].name, items[i].reason)
  {
    seq(|items|, i requires 0 <= i < |items| => CheckDomain(items[i].name, items[i].reason))
  }

  function CheckNamesOf(items: seq<CheckValueUntyped>): (r: seq<CheckValue>)
    ensures |r| == |items| && forall i :: 0 <= i < |items| ==> r[i] == items[i].name
  {
    seq(|items|, i requires 0 <= i < |items| => items[i].name)
  }

  function CheckIdsOf(items: seq<CheckValueUntyped>): (r: seq<CheckValue>)
    ensures |r| == |items| && forall i :: 0 <= i < |items| ==> r[i] == items[i].id
  {
    seq(|items|, i requires 0 <= i < |items| => items[i].id)
  }

  /** The typed result data of a generic one: one typed slot per non-empty namespace. */
  function TypedResultData(r: ResultData): ResultData
  {
    var inf := r.genericInf;
    var chk := r.genericChk;
    var ren := r.genericRen;
    var trn := r.genericTrn;
    var cre := r.genericCre;
    EmptyResultData.(
      domainInf := if inf.Some? && inf.value.xmlnsDomain != "" then Some(DomainInfOf(inf.value)) else None,
      hostInf := if inf.Some? && inf.value.xmlnsHost != "" then Some(HostInfOf(inf.value)) else None,
      contactInf := if inf.Some? && inf.value.xmlnsContact != "" then Some(ContactInfOf(inf.value)) else None,
      domainChk := if chk.Some? && chk.value.xmlnsDomain != ""
        then Some(DomainChkDataResp(DomainXMLNS, DomainSchema, CheckDomainsOf(chk.value.items))) else None,
      hostChk := if chk.Some? && chk.value.xmlnsHost != ""
        then Some(HostChkDataResp(HostXMLNS, HostSchema, CheckNamesOf(chk.value.items))) else None,
      contactChk := if chk.Some? && chk.value.xmlnsContact != ""
        then Some(ContactChkDataResp(ContactXMLNS, ContactSchema, CheckIdsOf(chk.value.items))) else None,
      domainRen := if ren.Some? && ren.value.xmlnsDomain != ""
        then Some(DomainRenDataResp(ren.value.xmlnsDomain, ren.value.schemaLocation, ren.value.name, ren.value.expireDate)) else None,
      domainTrn := if trn.Some? && trn.value.xmlnsDomain != ""
        then Some(DomainTrnDataResp(trn.value.xmlnsDomain, trn.value.schemaLocation, trn.value.name, trn.value.trStatus,
          trn.value.reID, trn.value.reDate, trn.value.acID, trn.value.acDate, trn.value.expireDate)) else None,
      contactTrn := if trn.Some? && trn.value.xmlnsContact != ""
        then Some(ContactTrnDataResp(trn.value.xmlnsContact, trn.value.schemaLocation, trn.value.id, trn.value.trStatus,
          trn.value.reID, trn.value.reDate, trn.value.acID, trn.value.acDate)) else None,
      domainCre := if cre.Some? && cre.value.xmlnsDomain != ""
        then Some(DomainCreDataResp(cre.value.xmlnsDomain, cre.value.schemaLocation, cre.value.name,
          cre.value.createDate, cre.value.expireDate)) else None,
      hostCre := if cre.Some? && cre.value.xmlnsHost != ""
        then Some(HostCreDataResp(cre.value.xmlnsHost, cre.value.schemaLocation, cre.value.name, cre.value.createDate)) else None,
      contactCre := if cre.Some? && cre.value.xmlnsContact != ""
        then Some(ContactCreDataResp(cre.value.xmlnsContact, cre.value.schemaLocation, cre.value.id, cre.value.createDate)) else None)
  }

  /** ResultData.TypedMessage. */
  method TypedMessage(r: ResultData) returns (out: ResultData)
    ensures out == TypedResultData(r)
  {
    var dInf, hInf, cInf := TypedInfos(r);
    var dChk, hChk, cChk := TypedChecks(r);
    var dRen: Option<DomainRenDataResp> := None;
    if r.genericRen.Some? && r.genericRen.value.xmlnsDomain != "" {
      var grd := r.genericRen.value;
      dRen := Some(DomainRenDataResp(grd.xmlnsDomain, grd.schemaLocation, grd.name, grd.expireDate));
    }
    var dTrn: Option<DomainTrnDataResp> := None;
    var cTrn: Option<ContactTrnDataResp> := None;
    if r.genericTrn.Some? {
      var gtd := r.genericTrn.value;
      if gtd.xmlnsDomain != "" {
        dTrn := Some(DomainTrnDataResp(gtd.xmlnsDomain, gtd.schemaLocation, gtd.name, gtd.trStatus,
          gtd.reID, gtd.reDate, gtd.acID, gtd.acDate, gtd.expireDate));
      }
      if gtd.xmlnsContact != "" {
        cTrn := Some(ContactTrnDataResp(gtd.xmlnsContact, gtd.schemaLocation, gtd.id, gtd.trStatus,
          gtd.reID, gtd.reDate, gtd.acID, gtd.acDate));
      }
    }
    var dCre: Option<DomainCreDataResp> := None;
    var hCre: Option<HostCreDataResp> := None;
    var cCre: Option<ContactCreDataResp> := None;
    if r.genericCre.Some? {
      var gcd := r.genericCre.value;
      if gcd.xmlnsDomain != "" {
        dCre := Some(DomainCreDataResp(gcd.xmlnsDomain, gcd.schemaLocation, gcd.name, gcd.createDate, gcd.expireDate));
      }
      if gcd.xmlnsHost != "" {
        hCre := Some(HostCreDataResp(gcd.xmlnsHost, gcd.schemaLocation, gcd.name, gcd.createDate));
      }
      if gcd.xmlnsContact != "" {
        cCre := Some(ContactCreDataResp(gcd.xmlnsContact, gcd.schemaLocation, gcd.id, gcd.createDate));
      }
    }
    out := EmptyResultData.(domainInf := dInf, hostInf := hInf, contactInf := cInf,
      domainChk := dChk, hostChk := hChk, contactChk := cChk, domainRen := dRen,
      domainTrn := dTrn, contactTrn := cTrn, domainCre := dCre, hostCre := hCre, contactCre := cCre);
  }

  /** The info half of TypedMessage: one conversion per non-empty namespace. */
  method TypedInfos(r: ResultData) returns (d: Option<DomainInfDataResp>, h: Option<HostInfDataResp>, c: Option<ContactInfDataResp>)
    ensures d == TypedResultData(r).domainInf && h == TypedResultData(r).hostInf && c == TypedResultData(r).contactInf
  {
    d, h, c := None, None, None;
    if r.genericInf.Some? {
      var g := r.genericInf.value;
      if g.xmlnsDomain != "" {
        var typed := ToDomainInfDataResp(g);
        if typed.Ok? {
          d := Some(typed.value);
        }
      }
      if g.xmlnsHost != "" {
        var typed := ToHostInfDataResp(g);
        if typed.Ok? {
          h := Some(typed.value);
        }
      }
      if g.xmlnsContact != "" {
        var typed := ToContactInfDataResp(g);
        if typed.Ok? {
          c := Some(typed.value);
        }
      }
    }
  }

  /** The check half of TypedMessage: the fixed namespaces and the items in order. */
  method TypedChecks(r: ResultData) returns (d: Option<DomainChkDataResp>, h: Option<HostChkDataResp>, c: Option<ContactChkDataResp>)
    ensures d == TypedResultData(r).domainChk && h == TypedResultData(r).hostChk && c == TypedResultData(r).contactChk
  {
    d, h, c := None, None, None;
    if r.genericChk.Some? {
      var items := r.genericChk.value.items;
      if r.genericChk.value.xmlnsDomain != "" {
        var domains: seq<CheckDomain> := [];
        for i := 0 to |items|
          invariant domains == CheckDomainsOf(items[..i])
        {
          domains := domains + [CheckDomain(items[i].name, items[i].reason)];
        }
        assert items[..|items|] == items;
        d := Some(DomainChkDataResp(DomainXMLNS, DomainSchema, domains));
      }
      if r.genericChk.value.xmlnsHost != "" {
        var hosts: seq<CheckValue> := [];
        for i := 0 to |items|
          invariant hosts == CheckNamesOf(items[..i])
        {
          hosts := hosts + [items[i].name];
        }
        assert items[..|items|] == items;
        h := Some(HostChkDataResp(HostXMLNS, HostSchema, hosts));
      }
      if r.genericChk.value.xmlnsContact != "" {
        var ids: seq<CheckValue> := [];
        for i := 0 to |items|
          invariant ids == CheckIdsOf(items[..i])
        {
          ids := ids + [items[i].id];
        }
        assert items[..|items|] == items;
        c := Some(ContactChkDataResp(ContactXMLNS, ContactSchema, ids));
      }
    }
  }

  /** Result data holding only a generic info response. */
  function InfoOnly(g: GenericInfDataResp): ResultData
  {
    EmptyResultData.(genericInf := Some(g))
  }

  /**
   * After conversion, an info response with exactly one namespace is
   * classified as an info message of that object type, and one with two
   * namespaces is not classified at all.
   */
  lemma TypedInfoMessageType(g: GenericInfDataResp)
    ensures g.xmlnsDomain != "" && g.xmlnsHost == "" && g.xmlnsContact == "" ==>
      ResultDataMessageType(TypedResultData(InfoOnly(g))) == ResponseDomainInfoType
    ensures g.xmlnsDomain == "" && g.xmlnsHost != "" && g.xmlnsContact == "" ==>
      ResultDataMessageType(TypedResultData(InfoOnly(g))) == ResponseHostInfoType
    ensures g.xmlnsDomain == "" && g.xmlnsHost == "" && g.xmlnsContact != "" ==>
      ResultDataMessageType(TypedResultData(InfoOnly(g))) == ResponseContactInfoType
    ensures g.xmlnsDomain != "" && g.xmlnsHost != "" ==>
      ResultDataMessageType(TypedResultData(InfoOnly(g))) == ResponseType
  {
    var t := TypedResultData(InfoOnly(g));
    if g.xmlnsDomain != "" && g.xmlnsHost != "" {
      assert [SlotDomainInf, SlotHostInf] <= TypedSlots(t) || |TypedSlots(t)| >= 2;
    }
  }

  /** Conversion leaves no generic slot behind. */
  lemma TypedResultDataIsTyped(r: ResultData)
    ensures var t := TypedResultData(r);
      t.genericChk.None? && t.genericCre.None? && t.genericInf.None? && t.genericRen.None? && t.genericTrn.None?
    ensures TypedResultData(TypedResultData(r)) == EmptyResultData
  {
  }

  // ---------------------------------------------------------------------
  // Responses and result codes

  datatype EppResult = EppResult(code: int, msg: string)
  datatype MessageQueue = MessageQueue(count: int, id: string, qDate: string, message: string)
  datatype SecDNSInfData = SecDNSInfData(xmlnsSecDNS: string, schemaLocation: string, dsData: seq<DSData>)
  /** The response extension; only the DNSSEC info data is modelled. */
  datatype ResponseExtension = ResponseExtension(secDNSInfData: Option<SecDNSInfData>)

  datatype Response = Response(
    result: Option<EppResult>, messageQueue: Option<MessageQueue>,
    resultData: Option<ResultData>, extension: Option<ResponseExtension>,
    clientTransactionID: string, serverTransactionID: string)

  /** Response.MessageType: the plain response type when there is no result data. */
  function ResponseMessageType(resp: Response): (m: string)
    ensures resp.resultData.None? ==> m == ResponseType
    ensures resp.resultData.Some? ==> m == ResultDataMessageType(resp.resultData.value)
  {
    if resp.resultData.Some? then ResultDataMessageType(resp.resultData.value) else ResponseType
  }

  const StartFatalCodeRange: int := 2500
  const EndFatalCodeRange: int := 2599
  const StartErrorCodeRange: int := 2000
  const EndErrorCodeRange: int := 2999

  const ResponseCodeCommandSuccessful: int := 1000
  const ResponseCodeCommandUseError: int := 2002
  const ResponseCodeObjectDoesNotExist: int := 2303
  const ResponseCodeAuthenticationError: int := 2200
  const ResponseCodeAuthorizationErrorClosing: int := 2501

  /** The result codes of section 3 of RFC 5730 and their messages. */
  const ResponseCodeMessages: map<int, string> := map[
    1000 := "Command completed successfully",
    1001 := "Command completed successfully; action pending",
    1300 := "Command completed successfully; no messages",
    1301 := "Command completed successfully; ack to dequeue",
    1500 := "Command completed successfully; ending session",
    2000 := "Unknown command",
    2001 := "Command syntax error",
    2002 := "Command use error",
    2003 := "Required parameter missing",
    2004 := "Parameter value range error",
    2005 := "Parameter value syntax error",
    2100 := "Unimplemented protocol version",
    2101 := "Unimplemented command",
    2102 := "Unimplemented option",
    2103 := "Unimplemented extension",
    2104 := "Billing failure",
    2105 := "Object is not eligible for renewal",
    2106 := "Object is not eligible for transfer",
    2200 := "Authentication error",
    2201 := "Authorization error",
    2202 := "Invalid authorization information",
    2300 := "Object pending transfer",
    2301 := "Object not pending transfer",
    2302 := "Object exists",
    2303 := "Object does not exist",
    2304 := "Object status prohibits operation",
    2305 := "Object association prohibits operation",
    2306 := "Parameter value policy error",
    2307 := "Unimplemented object service",
    2308 := "Data management policy violation",
    2400 := "Command failed",
    2500 := "Command failed; server closing connection",
    2501 := "Authentication error; server closing connection",
    2502 := "Session limit exceeded; server closing connection"]

  predicate IsFatalCode(code: int) { StartFatalCodeRange <= code <= EndFatalCodeRange }
  predicate IsErrorCode(code: int) { StartErrorCodeRange <= code <= EndErrorCodeRange }

  /** Response.IsFatalError; a response without a result is outside what the source handles. */
  function IsFatalError(resp: Response): (b: bool)
    requires resp.result.Some?
    ensures b <==> 2500 <= resp.result.value.code <= 2599
  {
    IsFatalCode(resp.result.value.code)
  }

  /** Response.IsError. */
  function IsError(resp: Response): (b: bool)
    requires resp.result.Some?
    ensures b <==> 2000 <= resp.result.value.code <= 2999
  {
    IsErrorCode(resp.result.value.code)
  }

  /** Response.GetError: an error with the result message exactly for error codes. */
  function GetError(resp: Response): (e: Option<string>)
    requires resp.result.Some?
    ensures e.Some? <==> IsError(resp)
    ensures e.Some? ==> e.value == resp.result.value.msg
  {
    if IsError(resp) then Some(resp.result.value.msg) else None
  }

  /** Every fatal response is an error response. */
  lemma FatalIsError(resp: Response)
    requires resp.result.Some?
    ensures IsFatalError(resp) ==> IsError(resp) && GetError(resp).Some?
  {
  }

  /** Of the defined codes, the errors are exactly those from 2000 up. */
  lemma DefinedErrorCodes()
    ensures forall c :: c in ResponseCodeMessages ==> (IsErrorCode(c) <==> c >= 2000)
  {
  }

  /** Of the defined codes, the fatal ones are exactly the three "server
      closing connection" codes. */
  lemma DefinedFatalCodes()
    ensures forall c :: c in ResponseCodeMessages ==> (IsFatalCode(c) <==> c == 2500 || c == 2501 || c == 2502)
  {
  }
}
