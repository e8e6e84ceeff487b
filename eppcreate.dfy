// EPP <create> commands (epp/create.go): the builders the registrar uses
// to create domains, hosts and contacts at the registry, the
// classification of a create message and the conversion of a received
// generic create into its typed form.

module EppCreate {
  import opened Common
  import opened EppBase

  // ---------------------------------------------------------------------
  // Messages

  datatype DomainCreate = DomainCreate(
    xmlnsDomain: string, xmlnsXsi: string, schemaLocation: string,
    domainName: string, period: DomainPeriod,
    hosts: Option<seq<DomainHost>>,
    registrant: string, contacts: seq<DomainContact>,
    auth: Option<string>)

  datatype HostCreate = HostCreate(
    xmlnsHost: string, xmlnsXsi: string, schemaLocation: string,
    hostName: string, addresses: seq<HostAddress>)

  datatype ContactCreate = ContactCreate(
    xmlnsContact: string, xmlnsXsi: string, schemaLocation: string,
    id: string, postalInfoList: seq<PostalInfo>,
    voice: PhoneNumber, fax: PhoneNumber, email: string,
    auth: Option<string>)

  /** A create as received from a client, before its namespace is known. */
  datatype GenericCreate = GenericCreate(
    xmlnsDomain: string, xmlnsHost: string, xmlnsContact: string,
    xmlnsXsi: string, schemaLocation: string,
    id: string, name: string, period: DomainPeriod, registrant: string,
    contacts: seq<GenericContact>, postalInfoList: seq<GenericPostalInfo>,
    voice: GenericPhone, fax: GenericPhone, email: string,
    hosts: seq<string>, addresses: seq<GenericHostAddr>,
    auth: Option<string>)

  datatype Create = Create(
    domain: Option<DomainCreate>, host: Option<HostCreate>,
    contact: Option<ContactCreate>, generic: Option<GenericCreate>)

  /** The command envelope of a create: transaction ID, body and extension. */
  datatype CreateCommand = CreateCommand(
    xmlns: string, transactionID: string, create: Create,
    extension: Option<NameStoreExtension>)

  const EmptyCreate: Create := Create(None, None, None, None)

  // ---------------------------------------------------------------------
  // Builders

  /** The part of a contact list contributed by one optional ID. */
  function OptionalContact(t: ContactType, id: Option<string>): seq<DomainContact>
  {
    if id.Some? then [DomainContact(t, id.value)] else []
  }

  /**
   * GetEPPDomainCreate. The name is upper-cased; the host list is absent
   * exactly when no host is given; the contacts are admin, tech and billing
   * in that order, each present only for a given ID; the password is
   * absent exactly when empty; the extension follows the name's suffix.
   */
  function GetEPPDomainCreate(domainName: string, period: DomainPeriod, hosts: seq<DomainHost>,
                              registrantID: Option<string>, adminID: Option<string>,
                              techID: Option<string>, billingID: Option<string>,
                              password: string, transactionID: string): (e: CreateCommand)
    ensures e.transactionID == transactionID && e.xmlns == EPPCommandXMLNS
    ensures e.create.domain.Some? && e.create.host.None? && e.create.contact.None?
    ensures e.create.domain.value.domainName == ToUpper(domainName)
    ensures e.create.domain.value.xmlnsDomain == DomainXMLNS
    ensures e.create.domain.value.schemaLocation == DomainSchema
    ensures e.create.domain.value.period == period
    ensures e.create.domain.value.hosts.None? <==> |hosts| == 0
    ensures e.create.domain.value.hosts.Some? ==> e.create.domain.value.hosts.value == hosts
    ensures e.create.domain.value.registrant == (if registrantID.Some? then registrantID.value else "")
    ensures e.create.domain.value.contacts ==
      OptionalContact(Admin, adminID) + OptionalContact(Tech, techID) + OptionalContact(Billing, billingID)
    ensures e.create.domain.value.auth.None? <==> |password| == 0
    ensures e.create.domain.value.auth.Some? ==> e.create.domain.value.auth.value == password
    ensures e.extension == SuffixExtension(ToUpper(domainName))
  {
    var name := ToUpper(domainName);
    var contacts := OptionalContact(Admin, adminID) + OptionalContact(Tech, techID) + OptionalContact(Billing, billingID);
    var dc := DomainCreate(DomainXMLNS, W3XMLNSxsi, DomainSchema, name, period,
      if |hosts| != 0 then Some(hosts) else None,
      if registrantID.Some? then registrantID.value else "",
      contacts,
      if |password| != 0 then Some(password) else None);
    CreateCommand(EPPCommandXMLNS, transactionID, EmptyCreate.(domain := Some(dc)), SuffixExtension(name))
  }

  function ContactRank(t: ContactType): nat
  {
    match t
    case Admin => 0
    case Tech => 1
    case Billing => 2
  }

  /**
   * The contacts of a domain create are in admin, tech, billing order, and
   * a contact of a type is present exactly when its ID was given, with
   * that ID as its value.
   */
  lemma DomainCreateContacts(adminID: Option<string>, techID: Option<string>, billingID: Option<string>)
    ensures var cs := OptionalContact(Admin, adminID) + OptionalContact(Tech, techID) + OptionalContact(Billing, billingID);
      (forall i, j :: 0 <= i < j < |cs| ==> ContactRank(cs[i].contactType) < ContactRank(cs[j].contactType)) &&
      (adminID.Some? <==> DomainContact(Admin, if adminID.Some? then adminID.value else "") in cs) &&
      (techID.Some? <==> DomainContact(Tech, if techID.Some? then techID.value else "") in cs) &&
      (billingID.Some? <==> DomainContact(Billing, if billingID.Some? then billingID.value else "") in cs) &&
      |cs| <= 3
  {
  }

  /** The tagged addresses of one IP version, in the given order. */
  function TaggedAddresses(version: string, ips: seq<string>): (r: seq<HostAddress>)
    ensures |r| == |ips| && forall i :: 0 <= i < |ips| ==> r[i] == HostAddress(version, ips[i])
  {
    seq(|ips|, i requires 0 <= i < |ips| => HostAddress(version, ips[i]))
  }

  /**
   * GetEPPHostCreate. The name is upper-cased; the IPv4 addresses come
   * first, tagged "v4", then the IPv6 ones, tagged "v6"; the extension
   * follows the upper-cased name's suffix.
   */
  method GetEPPHostCreate(hostname: string, ipv4Addresses: seq<string>, ipv6Addresses: seq<string>,
                          transactionID: string) returns (e: CreateCommand)
    ensures e.transactionID == transactionID && e.xmlns == EPPCommandXMLNS
    ensures e.create == EmptyCreate.(host := Some(HostCreate(HostXMLNS, W3XMLNSxsi, HostSchema, ToUpper(hostname),
      TaggedAddresses(IPv4, ipv4Addresses) + TaggedAddresses(IPv6, ipv6Addresses))))
    ensures MessageType(e.create) == CommandCreateHostType
    ensures e.extension == SuffixExtension(ToUpper(hostname))
  {
    var addresses: seq<HostAddress> := [];
    for i := 0 to |ipv4Addresses|
      invariant addresses == TaggedAddresses(IPv4, ipv4Addresses[..i])
    {
      addresses := addresses + [HostAddress(IPv4, ipv4Addresses[i])];
    }
    assert ipv4Addresses[..|ipv4Addresses|] == ipv4Addresses;
    ghost var v4 := addresses;
    for i := 0 to |ipv6Addresses|
      invariant addresses == v4 + TaggedAddresses(IPv6, ipv6Addresses[..i])
    {
      addresses := addresses + [HostAddress(IPv6, ipv6Addresses[i])];
    }
    assert ipv6Addresses[..|ipv6Addresses|] == ipv6Addresses;
    var hc := HostCreate(HostXMLNS, W3XMLNSxsi, HostSchema, ToUpper(hostname), addresses);
    e := CreateCommand(EPPCommandXMLNS, transactionID, EmptyCreate.(host := Some(hc)), SuffixExtension(hc.hostName));
  }

  /**
   * GetEPPContactCreate: one postal info block; the password is absent
   * exactly when empty.
   */
  function GetEPPContactCreate(contactID: string, postalInfo: PostalInfo, email: string,
                               voice: PhoneNumber, fax: PhoneNumber, password: string,
                               transactionID: string): (e: CreateCommand)
    ensures e.transactionID == transactionID && e.extension.None?
    ensures e.create.contact.Some? && e.create.domain.None? && e.create.host.None?
    ensures e.create.contact.value.postalInfoList == [postalInfo]
    ensures e.create.contact.value.id == contactID && e.create.contact.value.email == email
    ensures e.create.contact.value.voice == voice && e.create.contact.value.fax == fax
    ensures e.create.contact.value.auth.None? <==> |password| == 0
    ensures e.create.contact.value.auth.Some? ==> e.create.contact.value.auth.value == password
  {
    var cc := ContactCreate(ContactXMLNS, W3XMLNSxsi, ContactSchema, contactID, [postalInfo],
      voice, fax, email, if |password| != 0 then Some(password) else None);
    CreateCommand(EPPCommandXMLNS, transactionID, EmptyCreate.(contact := Some(cc)), None)
  }

  /** The non-empty strings of a list, in order. */
  function NonEmpty(xs: seq<string>): seq<string>
  {
    if xs == [] then []
    else (if |xs[0]| != 0 then [xs[0]] else []) + NonEmpty(xs[1..])
  }

  lemma {:induction false} NonEmptyIsSubsequence(xs: seq<string>)
    ensures |NonEmpty(xs)| <= |xs|
    ensures forall s :: s in NonEmpty(xs) <==> s in xs && |s| != 0
    ensures (forall i :: 0 <= i < |xs| ==> |xs[i]| != 0) ==> NonEmpty(xs) == xs
  {
    if xs != [] {
      NonEmptyIsSubsequence(xs[1..]);
      assert xs == [xs[0]] + xs[1..];
      assert forall s :: s in xs <==> s == xs[0] || s in xs[1..];
    }
  }

  /**
   * GetEPPPostalInfo: the streets are the non-empty ones among street1,
   * street2 and street3, in that order; the other fields are copied.
   */
  function GetEPPPostalInfo(postalType: string, name: string, org: string,
                            street1: string, street2: string, street3: string,
                            city: string, stateProv: string, postalCode: string, country: string): (p: PostalInfo)
    ensures p.address.street == NonEmpty([street1, street2, street3])
    ensures p.postalInfoType == postalType && p.name == name && p.org == org
    ensures p.address == PostalInfoAddress(p.address.street, city, stateProv, postalCode, country)
  {
    var s1: seq<string> := if |street1| != 0 then [street1] else [];
    var s2: seq<string> := if |street2| != 0 then s1 + [street2] else s1;
    var s3: seq<string> := if |street3| != 0 then s2 + [street3] else s2;
    assert [street1, street2, street3][1..] == [street2, street3];
    assert [street2, street3][1..] == [street3];
    assert [street3][1..] == [];
    assert NonEmpty([street3]) == (if |street3| != 0 then [street3] else []);
    assert NonEmpty([street2, street3]) == (if |street2| != 0 then [street2] else []) + NonEmpty([street3]);
    assert NonEmpty([street1, street2, street3]) == (if |street1| != 0 then [street1] else []) + NonEmpty([street2, street3]);
    PostalInfo(postalType, name, org, PostalInfoAddress(s3, city, stateProv, postalCode, country))
  }

  /** No street list of a built postal info holds an empty street or more than three. */
  lemma PostalInfoStreets(street1: string, street2: string, street3: string)
    ensures var st := GetEPPPostalInfo("", "", "", street1, street2, street3, "", "", "", "").address.street;
      |st| <= 3 && (forall s :: s in st ==> |s| != 0) &&
      (|street1| != 0 && |street2| != 0 && |street3| != 0 ==> st == [street1, street2, street3])
  {
    NonEmptyIsSubsequence([street1, street2, street3]);
  }

  // ---------------------------------------------------------------------
  // Classification

  const CommandCreateType: string := "epp.command.create"
  const CommandCreateContactType: string := "epp.command.create.contact"
  const CommandCreateDomainType: string := "epp.command.create.domain"
  const CommandCreateHostType: string := "epp.command.create.host"

  /** Create.MessageType: specific exactly when one typed object is present. */
  function MessageType(c: Create): (r: string)
    ensures r == CommandCreateContactType <==> c.contact.Some? && c.domain.None? && c.host.None?
    ensures r == CommandCreateDomainType <==> c.contact.None? && c.domain.Some? && c.host.None?
    ensures r == CommandCreateHostType <==> c.contact.None? && c.domain.None? && c.host.Some?
    ensures r in {CommandCreateType, CommandCreateContactType, CommandCreateDomainType, CommandCreateHostType}
  {
    if c.contact.Some? && c.domain.None? && c.host.None? then CommandCreateContactType
    else if c.contact.None? && c.domain.Some? && c.host.None? then CommandCreateDomainType
    else if c.contact.None? && c.domain.None? && c.host.Some? then CommandCreateHostType
    else CommandCreateType
  }

  // ---------------------------------------------------------------------
  // Conversion of a received generic create

  function ContactCreateOf(g: GenericCreate): ContactCreate
  {
    ContactCreate(g.xmlnsContact, g.xmlnsXsi, g.schemaLocation, g.id, PostalInfosOf(g.postalInfoList),
      PhoneOf(g.voice), PhoneOf(g.fax), g.email, g.auth)
  }

  function DomainCreateOf(g: GenericCreate): DomainCreate
  {
    DomainCreate(g.xmlnsDomain, g.xmlnsXsi, g.schemaLocation, g.name, g.period,
      if |g.hosts| > 0 then Some(DomainHostsOf(g.hosts)) else None,
      g.registrant, KnownContacts(g.contacts), g.auth)
  }

  function HostCreateOf(g: GenericCreate): HostCreate
  {
    HostCreate(g.xmlnsHost, g.xmlnsXsi, g.schemaLocation, g.name, HostAddressesOf(g.addresses))
  }

  /** The typed create of a generic one: one object per non-empty namespace. */
  function TypedCreate(g: GenericCreate): Create
  {
    Create(
      if g.xmlnsDomain != "" then Some(DomainCreateOf(g)) else None,
      if g.xmlnsHost != "" then Some(HostCreateOf(g)) else None,
      if g.xmlnsContact != "" then Some(ContactCreateOf(g)) else None,
      None)
  }

  /**
   * Create.TypedMessage. Go dereferences the generic object without a
   * check, so a create without one is outside what the source handles.
   */
  method TypedMessage(c: Create) returns (out: Create)
    requires c.generic.Some?
    ensures out == TypedCreate(c.generic.value)
  {
    var g := c.generic.value;
    out := EmptyCreate;
    if g.xmlnsContact != "" {
      var infos: seq<PostalInfo> := [];
      for i := 0 to |g.postalInfoList|
        invariant infos == PostalInfosOf(g.postalInfoList[..i])
      {
        infos := infos + [PostalInfoOf(g.postalInfoList[i])];
      }
      assert g.postalInfoList[..|g.postalInfoList|] == g.postalInfoList;
      out := out.(contact := Some(ContactCreate(g.xmlnsContact, g.xmlnsXsi, g.schemaLocation, g.id, infos,
        PhoneNumber(g.voice.number, g.voice.extension), PhoneNumber(g.fax.number, g.fax.extension), g.email,
        if g.auth.Some? then Some(g.auth.value) else None)));
    }
    if g.xmlnsDomain != "" {
      var hosts: Option<seq<DomainHost>> := None;
      if |g.hosts| > 0 {
        var hs: seq<DomainHost> := [];
        for i := 0 to |g.hosts|
          invariant hs == DomainHostsOf(g.hosts[..i])
        {
          hs := hs + [DomainHost(g.hosts[i])];
        }
        assert g.hosts[..|g.hosts|] == g.hosts;
        hosts := Some(hs);
      }
      var contacts: seq<DomainContact> := [];
      for i := 0 to |g.contacts|
        invariant contacts == KnownContacts(g.contacts[..i])
      {
        var ct := ContactTypeFromString(g.contacts[i].contactType);
        assert g.contacts[..i + 1][..i] == g.contacts[..i];
        if ct.Ok? {
          contacts := contacts + [DomainContact(ct.value, g.contacts[i].value)];
        }
      }
      assert g.contacts[..|g.contacts|] == g.contacts;
      out := out.(domain := Some(DomainCreate(g.xmlnsDomain, g.xmlnsXsi, g.schemaLocation, g.name,
        DomainPeriod(g.period.unit, g.period.value), hosts, g.registrant, contacts,
        if g.auth.Some? then Some(g.auth.value) else None)));
    }
    if g.xmlnsHost != "" {
      var addresses: seq<HostAddress> := [];
      for i := 0 to |g.addresses|
        invariant addresses == HostAddressesOf(g.addresses[..i])
      {
        addresses := addresses + [HostAddress(g.addresses[i].ipVersion, g.addresses[i].address)];
      }
      assert g.addresses[..|g.addresses|] == g.addresses;
      out := out.(host := Some(HostCreate(g.xmlnsHost, g.xmlnsXsi, g.schemaLocation, g.name, addresses)));
    }
  }

  /**
   * A generic create with exactly one namespace set turns into a typed
   * create of that kind, and one with none set stays unclassified.
   */
  lemma TypedCreateMessageType(g: GenericCreate)
    ensures g.xmlnsDomain != "" && g.xmlnsHost == "" && g.xmlnsContact == "" ==>
      MessageType(TypedCreate(g)) == CommandCreateDomainType
    ensures g.xmlnsDomain == "" && g.xmlnsHost != "" && g.xmlnsContact == "" ==>
      MessageType(TypedCreate(g)) == CommandCreateHostType
    ensures g.xmlnsDomain == "" && g.xmlnsHost == "" && g.xmlnsContact != "" ==>
      MessageType(TypedCreate(g)) == CommandCreateContactType
    ensures g.xmlnsDomain == "" && g.xmlnsHost == "" && g.xmlnsContact == "" ==>
      MessageType(TypedCreate(g)) == CommandCreateType
  {
  }

  /**
   * The typed domain create keeps every host in order, and drops exactly
   * the contacts whose type is not recognised.
   */
  lemma TypedDomainCreateContacts(g: GenericCreate)
    requires g.xmlnsDomain != ""
    ensures var d := TypedCreate(g).domain.value;
      (d.hosts.Some? <==> |g.hosts| > 0) &&
      (d.hosts.Some? ==> |d.hosts.value| == |g.hosts| && forall i :: 0 <= i < |g.hosts| ==> d.hosts.value[i].value == g.hosts[i]) &&
      |d.contacts| <= |g.contacts| &&
      (forall c :: c in d.contacts ==>
        exists gc :: gc in g.contacts && ContactTypeFromString(gc.contactType) == Ok(c.contactType) && gc.value == c.value)
  {
    KnownContactsSound(g.contacts);
  }
}
