// EPP <update> commands (epp/update.go): the builders for domain, host
// and contact updates, the classification of an update message and the
// conversion of a received generic update into its typed form.

module EppUpdate {
  import opened Common
  import opened EppBase

  // ---------------------------------------------------------------------
  // Messages

  datatype DomainUpdateAddRemove = DomainUpdateAddRemove(
    hosts: Option<seq<DomainHost>>, contacts: seq<DomainContact>, statuses: seq<string>)
  datatype DomainUpdateChange = DomainUpdateChange(registrant: string, authInfo: Option<string>)
  datatype DomainUpdate = DomainUpdate(
    xmlnsDomain: string, xmlnsXsi: string, schemaLocation: string, domainName: string,
    add: DomainUpdateAddRemove, rem: DomainUpdateAddRemove, chg: DomainUpdateChange)

  datatype HostUpdateAddRemove = HostUpdateAddRemove(addresses: seq<HostAddress>, statuses: seq<string>)
  datatype HostUpdateChange = HostUpdateChange(hostName: string)
  datatype HostUpdate = HostUpdate(
    xmlnsHost: string, xmlnsXsi: string, schemaLocation: string, hostName: string,
    add: HostUpdateAddRemove, rem: HostUpdateAddRemove, chg: Option<HostUpdateChange>)

  datatype ContactUpdateAddRemove = ContactUpdateAddRemove(statuses: seq<string>)
  datatype ContactUpdateChange = ContactUpdateChange(
    postal: Option<PostalInfo>, voice: Option<PhoneNumber>, fax: Option<PhoneNumber>,
    email: string, authInfo: Option<string>)
  datatype ContactUpdate = ContactUpdate(
    xmlnsContact: string, xmlnsXsi: string, schemaLocation: string, contactID: string,
    add: ContactUpdateAddRemove, rem: ContactUpdateAddRemove, chg: ContactUpdateChange)

  datatype GenericUpdateAddRemove = GenericUpdateAddRemove(
    hosts: seq<string>, contacts: seq<GenericContact>, statuses: seq<string>, addresses: seq<GenericHostAddr>)
  datatype GenericUpdateChange = GenericUpdateChange(
    registrant: string, name: string, postal: Option<GenericPostalInfo>,
    voice: Option<GenericPhone>, fax: Option<GenericPhone>, email: string, authInfo: Option<string>)
  /** An update as received from a client, before its namespace is known. */
  datatype GenericUpdate = GenericUpdate(
    xmlnsDomain: string, xmlnsHost: string, xmlnsContact: string, xmlnsXsi: string, schemaLocation: string,
    name: string, id: string,
    add: GenericUpdateAddRemove, rem: GenericUpdateAddRemove, chg: GenericUpdateChange)

  datatype Update = Update(
    domain: Option<DomainUpdate>, host: Option<HostUpdate>,
    contact: Option<ContactUpdate>, generic: Option<GenericUpdate>)

  /** The command envelope of an update: transaction ID, body and extension. */
  datatype UpdateCommand = UpdateCommand(
    xmlns: string, transactionID: string, update: Update, extension: Option<NameStoreExtension>)

  const EmptyUpdate: Update := Update(None, None, None, None)
  const EmptyDomainAddRemove: DomainUpdateAddRemove := DomainUpdateAddRemove(None, [], [])
  const EmptyDomainChange: DomainUpdateChange := DomainUpdateChange("", None)
  const EmptyHostAddRemove: HostUpdateAddRemove := HostUpdateAddRemove([], [])

  // ---------------------------------------------------------------------
  // Builders

  /**
   * GetEPPDomainUpdateChange: the registrant is set exactly when given, and
   * the password block is present exactly when a password is given.
   */
  function GetEPPDomainUpdateChange(registrantID: Option<string>, authPassword: Option<string>): (c: DomainUpdateChange)
    ensures registrantID.Some? ==> c.registrant == registrantID.value
    ensures registrantID.None? ==> c.registrant == ""
    ensures c.authInfo == authPassword
  {
    DomainUpdateChange(if registrantID.Some? then registrantID.value else "",
      if authPassword.Some? then Some(authPassword.value) else None)
  }

  /**
   * GetEPPDomainUpdateAddRemove: the host list is absent exactly when no
   * host is given; hosts and statuses keep their order.
   */
  method GetEPPDomainUpdateAddRemove(hosts: seq<string>, contacts: seq<DomainContact>, statuses: seq<string>)
    returns (ar: DomainUpdateAddRemove)
    ensures ar.hosts.None? <==> |hosts| == 0
    ensures ar.hosts.Some? ==> ar.hosts.value == DomainHostsOf(hosts)
    ensures ar.contacts == contacts && ar.statuses == statuses
  {
    ar := DomainUpdateAddRemove(None, contacts, []);
    if |hosts| != 0 {
      var hs: seq<DomainHost> := [];
      for i := 0 to |hosts|
        invariant hs == DomainHostsOf(hosts[..i])
      {
        hs := hs + [DomainHost(hosts[i])];
      }
      assert hosts[..|hosts|] == hosts;
      ar := ar.(hosts := Some(hs));
    }
    var st: seq<string> := [];
    for i := 0 to |statuses|
      invariant st == statuses[..i]
    {
      st := st + [statuses[i]];
    }
    assert statuses[..|statuses|] == statuses;
    ar := ar.(statuses := st);
  }

  /**
   * GetEPPDomainUpdate: the name is upper-cased, absent parts stay empty,
   * and the namestore extension follows the upper-cased name.
   */
  function GetEPPDomainUpdate(domainName: string, add: Option<DomainUpdateAddRemove>, rem: Option<DomainUpdateAddRemove>,
                              chg: Option<DomainUpdateChange>, transactionID: string): (e: UpdateCommand)
    ensures e.transactionID == transactionID && e.xmlns == EPPCommandXMLNS
    ensures e.update.domain.Some? && e.update.host.None? && e.update.contact.None?
    ensures e.update.domain.value.domainName == ToUpper(domainName)
    ensures e.update.domain.value.add == (if add.Some? then add.value else EmptyDomainAddRemove)
    ensures e.update.domain.value.rem == (if rem.Some? then rem.value else EmptyDomainAddRemove)
    ensures e.update.domain.value.chg == (if chg.Some? then chg.value else EmptyDomainChange)
    ensures e.extension.Some? <==> HasSuffix(ToUpper(domainName), ".COM") || HasSuffix(ToUpper(domainName), ".NET")
    ensures e.extension == SuffixExtension(ToUpper(domainName))
  {
    var name := ToUpper(domainName);
    var du := DomainUpdate(DomainXMLNS, W3XMLNSxsi, DomainSchema, name,
      if add.Some? then add.value else EmptyDomainAddRemove,
      if rem.Some? then rem.value else EmptyDomainAddRemove,
      if chg.Some? then chg.value else EmptyDomainChange);
    UpdateCommand(EPPCommandXMLNS, transactionID, EmptyUpdate.(domain := Some(du)), SuffixExtension(name))
  }

  /** GetEPPHostUpdateChange: the new name, upper-cased. */
  function GetEPPHostUpdateChange(newHostName: string): (c: HostUpdateChange)
    ensures c.hostName == ToUpper(newHostName) && NoLowerAscii(c.hostName)
  {
    ToUpperIdempotent(newHostName);
    HostUpdateChange(ToUpper(newHostName))
  }

  /** GetEPPHostUpdateAddRemove: addresses as given, statuses in order. */
  method GetEPPHostUpdateAddRemove(addresses: seq<HostAddress>, statuses: seq<string>) returns (ar: HostUpdateAddRemove)
    ensures ar.addresses == addresses && ar.statuses == statuses
  {
    var st: seq<string> := [];
    for i := 0 to |statuses|
      invariant st == statuses[..i]
    {
      st := st + [statuses[i]];
    }
    assert statuses[..|statuses|] == statuses;
    ar := HostUpdateAddRemove(addresses, st);
  }

  /**
   * GetEPPHostUpdate: the name is upper-cased, absent parts stay empty, an
   * absent change stays absent, and the extension follows the name.
   */
  function GetEPPHostUpdate(hostName: string, add: Option<HostUpdateAddRemove>, rem: Option<HostUpdateAddRemove>,
                            chg: Option<HostUpdateChange>, transactionID: string): (e: UpdateCommand)
    ensures e.transactionID == transactionID && e.xmlns == EPPCommandXMLNS
    ensures e.update.host.Some? && e.update.domain.None? && e.update.contact.None?
    ensures e.update.host.value.hostName == ToUpper(hostName)
    ensures e.update.host.value.add == (if add.Some? then add.value else EmptyHostAddRemove)
    ensures e.update.host.value.rem == (if rem.Some? then rem.value else EmptyHostAddRemove)
    ensures e.update.host.value.chg == chg
    ensures e.extension.Some? <==> HasSuffix(ToUpper(hostName), ".COM") || HasSuffix(ToUpper(hostName), ".NET")
    ensures e.extension == SuffixExtension(ToUpper(hostName))
  {
    var name := ToUpper(hostName);
    var hu := HostUpdate(HostXMLNS, W3XMLNSxsi, HostSchema, name,
      if add.Some? then add.value else EmptyHostAddRemove,
      if rem.Some? then rem.value else EmptyHostAddRemove,
      chg);
    UpdateCommand(EPPCommandXMLNS, transactionID, EmptyUpdate.(host := Some(hu)), SuffixExtension(name))
  }

  /** GetEPPContactUpdate: the contact ID and the three parts as given, no extension. */
  function GetEPPContactUpdate(contactID: string, add: ContactUpdateAddRemove, rem: ContactUpdateAddRemove,
                               chg: ContactUpdateChange, transactionID: string): (e: UpdateCommand)
    ensures e.transactionID == transactionID && e.extension.None?
    ensures e.update == EmptyUpdate.(contact := Some(ContactUpdate(ContactXMLNS, W3XMLNSxsi, ContactSchema,
      contactID, add, rem, chg)))
  {
    UpdateCommand(EPPCommandXMLNS, transactionID,
      EmptyUpdate.(contact := Some(ContactUpdate(ContactXMLNS, W3XMLNSxsi, ContactSchema, contactID, add, rem, chg))),
      None)
  }

  /** GetEPPContactUpdateAddRemove: the statuses in order. */
  method GetEPPContactUpdateAddRemove(statuses: seq<string>) returns (ar: ContactUpdateAddRemove)
    ensures ar.statuses == statuses
  {
    var st: seq<string> := [];
    for i := 0 to |statuses|
      invariant st == statuses[..i]
    {
      st := st + [statuses[i]];
    }
    assert statuses[..|statuses|] == statuses;
    ar := ContactUpdateAddRemove(st);
  }

  /**
   * GetEPPContactUpdateChange: the postal info, phones and email as
   * given; the password block is present exactly for a non-empty password.
   */
  function GetEPPContactUpdateChange(postal: Option<PostalInfo>, voice: Option<PhoneNumber>, fax: Option<PhoneNumber>,
                                     emailAddress: string, password: string): (c: ContactUpdateChange)
    ensures c.postal == postal && c.voice == voice && c.fax == fax && c.email == emailAddress
    ensures c.authInfo.Some? <==> |password| != 0
    ensures c.authInfo.Some? ==> c.authInfo.value == password
  {
    ContactUpdateChange(postal, voice, fax, emailAddress, if |password| != 0 then Some(password) else None)
  }

  // ---------------------------------------------------------------------
  // Classification

  const CommandUpdateType: string := "epp.command.update"
  const CommandUpdateDomainType: string := "epp.command.update.domain"
  const CommandUpdateHostType: string := "epp.command.update.host"
  const CommandUpdateContactType: string := "epp.command.update.contact"

  /** Update.MessageType: specific exactly when one typed object is present. */
  function MessageType(u: Update): (r: string)
    ensures r == CommandUpdateContactType <==> u.contact.Some? && u.domain.None? && u.host.None?
    ensures r == CommandUpdateDomainType <==> u.contact.None? && u.domain.Some? && u.host.None?
    ensures r == CommandUpdateHostType <==> u.contact.None? && u.domain.None? && u.host.Some?
    ensures r in {CommandUpdateType, CommandUpdateContactType, CommandUpdateDomainType, CommandUpdateHostType}
  {
    if u.contact.Some? && u.domain.None? && u.host.None? then CommandUpdateContactType
    else if u.contact.None? && u.domain.Some? && u.host.None? then CommandUpdateDomainType
    else if u.contact.None? && u.domain.None? && u.host.Some? then CommandUpdateHostType
    else CommandUpdateType
  }

  /** Every domain update a builder produces is classified as one. */
  lemma BuiltUpdatesClassified(name: string, dar: Option<DomainUpdateAddRemove>, har: Option<HostUpdateAddRemove>,
                               tx: string)
    ensures MessageType(GetEPPDomainUpdate(name, dar, dar, None, tx).update) == CommandUpdateDomainType
    ensures MessageType(GetEPPHostUpdate(name, har, har, None, tx).update) == CommandUpdateHostType
    ensures MessageType(GetEPPContactUpdate(name, ContactUpdateAddRemove([]), ContactUpdateAddRemove([]),
      GetEPPContactUpdateChange(None, None, None, "", ""), tx).update) == CommandUpdateContactType
  {
  }

  // ---------------------------------------------------------------------
  // Conversion of a received generic update

  /** The typed add or remove part of a domain update: every host kept, in order. */
  function DomainAddRemoveOf(g: GenericUpdateAddRemove): DomainUpdateAddRemove
  {
    DomainUpdateAddRemove(if |g.hosts| > 0 then Some(DomainHostsOf(g.hosts)) else None,
      KnownContacts(g.contacts), g.statuses)
  }

  /**
   * The add or remove part as the source builds it: the host list is
   * re-created for every host, so only the last one is left.
   */
  function DomainAddRemoveAsWritten(g: GenericUpdateAddRemove): DomainUpdateAddRemove
  {
    DomainAddRemoveOf(g).(hosts := if |g.hosts| > 0 then Some([DomainHost(g.hosts[|g.hosts| - 1])]) else None)
  }

  function DomainUpdateOf(g: GenericUpdate, asWritten: bool): DomainUpdate
  {
    DomainUpdate(g.xmlnsDomain, g.xmlnsXsi, g.schemaLocation, g.name,
      if asWritten then DomainAddRemoveAsWritten(g.add) else DomainAddRemoveOf(g.add),
      if asWritten then DomainAddRemoveAsWritten(g.rem) else DomainAddRemoveOf(g.rem),
      DomainUpdateChange(g.chg.registrant, g.chg.authInfo))
  }

  function HostUpdateOf(g: GenericUpdate): HostUpdate
  {
    HostUpdate(g.xmlnsHost, g.xmlnsXsi, g.schemaLocation, g.name,
      HostUpdateAddRemove(HostAddressesOf(g.add.addresses), g.add.statuses),
      HostUpdateAddRemove(HostAddressesOf(g.rem.addresses), g.rem.statuses),
      if g.chg.name != "" then Some(HostUpdateChange(g.chg.name)) else None)
  }

  /** The source reads the postal info and both phones of a contact change unconditionally. */
  predicate ContactChangeComplete(g: GenericUpdate)
  {
    g.chg.postal.Some? && g.chg.voice.Some? && g.chg.fax.Some?
  }

  function ContactUpdateOf(g: GenericUpdate): ContactUpdate
    requires ContactChangeComplete(g)
  {
    ContactUpdate(g.xmlnsContact, g.xmlnsXsi, g.schemaLocation, g.id,
      ContactUpdateAddRemove(g.add.statuses), ContactUpdateAddRemove(g.rem.statuses),
      ContactUpdateChange(Some(PostalInfoOf(g.chg.postal.value)), Some(PhoneOf(g.chg.voice.value)),
        Some(PhoneOf(g.chg.fax.value)), g.chg.email, g.chg.authInfo))
  }

  /** A generic update the source can convert without dereferencing a missing part. */
  predicate Convertible(u: Update)
  {
    u.generic.Some? && (u.generic.value.xmlnsContact != "" ==> ContactChangeComplete(u.generic.value))
  }

  /** The typed update of a generic one: one object per non-empty namespace. */
  function TypedUpdate(g: GenericUpdate, asWritten: bool): Update
    requires g.xmlnsContact != "" ==> ContactChangeComplete(g)
  {
    Update(
      if g.xmlnsDomain != "" then Some(DomainUpdateOf(g, asWritten)) else None,
      if g.xmlnsHost != "" then Some(HostUpdateOf(g)) else None,
      if g.xmlnsContact != "" then Some(ContactUpdateOf(g)) else None,
      None)
  }

  /** The statuses of a generic part, copied in order. */
  method CopyStatuses(statuses: seq<string>) returns (out: seq<string>)
    ensures out == statuses
  {
    out := [];
    for i := 0 to |statuses|
      invariant out == statuses[..i]
    {
      out := out + [statuses[i]];
    }
    assert statuses[..|statuses|] == statuses;
  }

  /** The domain add or remove part, keeping every host. */
  method TypedDomainAddRemove(g: GenericUpdateAddRemove) returns (ar: DomainUpdateAddRemove)
    ensures ar == DomainAddRemoveOf(g)
  {
    var statuses := CopyStatuses(g.statuses);
    var hosts: Option<seq<DomainHost>> := None;
    for i := 0 to |g.hosts|
      invariant i == 0 ==> hosts.None?
      invariant i > 0 ==> hosts == Some(DomainHostsOf(g.hosts[..i]))
    {
      var prev := if hosts.Some? then hosts.value else [];
      assert prev == DomainHostsOf(g.hosts[..i]);
      assert DomainHostsOf(g.hosts[..i + 1]) == prev + [DomainHost(g.hosts[i])];
      hosts := Some(prev + [DomainHost(g.hosts[i])]);
    }
    assert g.hosts[..|g.hosts|] == g.hosts;
    var contacts := TypedContacts(g.contacts);
    ar := DomainUpdateAddRemove(hosts, contacts, statuses);
  }

  /** The domain add or remove part as the source builds it. */
  method TypedDomainAddRemoveAsWritten(g: GenericUpdateAddRemove) returns (ar: DomainUpdateAddRemove)
    ensures ar == DomainAddRemoveAsWritten(g)
  {
    var statuses := CopyStatuses(g.statuses);
    var hosts: Option<seq<DomainHost>> := None;
    for i := 0 to |g.hosts|
      invariant i == 0 ==> hosts.None?
      invariant i > 0 ==> hosts == Some([DomainHost(g.hosts[i - 1])])
    {
      var recreated: seq<DomainHost> := [];
      hosts := Some(recreated + [DomainHost(g.hosts[i])]);
      assert recreated + [DomainHost(g.hosts[i])] == [DomainHost(g.hosts[i])];
    }
    var contacts := TypedContacts(g.contacts);
    ar := DomainUpdateAddRemove(hosts, contacts, statuses);
  }

  /** The contacts of recognised type, in order. */
  method TypedContacts(cs: seq<GenericContact>) returns (out: seq<DomainContact>)
    ensures out == KnownContacts(cs)
  {
    out := [];
    for i := 0 to |cs|
      invariant out == KnownContacts(cs[..i])
    {
      var ct := ContactTypeFromString(cs[i].contactType);
      assert cs[..i + 1][..i] == cs[..i];
      if ct.Ok? {
        out := out + [DomainContact(ct.value, cs[i].value)];
      }
    }
    assert cs[..|cs|] == cs;
  }

  /** The host add or remove part: addresses and statuses in order. */
  method TypedHostAddRemove(g: GenericUpdateAddRemove) returns (ar: HostUpdateAddRemove)
    ensures ar == HostUpdateAddRemove(HostAddressesOf(g.addresses), g.statuses)
  {
    var statuses := CopyStatuses(g.statuses);
    var addresses: seq<HostAddress> := [];
    for i := 0 to |g.addresses|
      invariant addresses == HostAddressesOf(g.addresses[..i])
    {
      addresses := addresses + [HostAddress(g.addresses[i].ipVersion, g.addresses[i].address)];
    }
    assert g.addresses[..|g.addresses|] == g.addresses;
    ar := HostUpdateAddRemove(addresses, statuses);
  }

  /** The shared body of both conversions; `asWritten` selects the domain host handling. */
  method TypedMessageWith(u: Update, asWritten: bool) returns (out: Update)
    requires Convertible(u)
    ensures out == TypedUpdate(u.generic.value, asWritten)
  {
    var g := u.generic.value;
    out := EmptyUpdate;
    if g.xmlnsContact != "" {
      var addSt := CopyStatuses(g.add.statuses);
      var remSt := CopyStatuses(g.rem.statuses);
      var p := g.chg.postal.value;
      var postal := PostalInfo(p.postalType, p.name, p.org,
        PostalInfoAddress([] + p.addr.streets, p.addr.city, p.addr.stateProv, p.addr.postalCode, p.addr.country));
      assert [] + p.addr.streets == p.addr.streets;
      assert postal == PostalInfoOf(p);
      var chg := ContactUpdateChange(Some(postal),
        Some(PhoneNumber(g.chg.voice.value.number, g.chg.voice.value.extension)),
        Some(PhoneNumber(g.chg.fax.value.number, g.chg.fax.value.extension)),
        g.chg.email, if g.chg.authInfo.Some? then Some(g.chg.authInfo.value) else None);
      out := out.(contact := Some(ContactUpdate(g.xmlnsContact, g.xmlnsXsi, g.schemaLocation, g.id,
        ContactUpdateAddRemove(addSt), ContactUpdateAddRemove(remSt), chg)));
    }
    if g.xmlnsDomain != "" {
      var add, rem;
      if asWritten {
        add := TypedDomainAddRemoveAsWritten(g.add);
        rem := TypedDomainAddRemoveAsWritten(g.rem);
      } else {
        add := TypedDomainAddRemove(g.add);
        rem := TypedDomainAddRemove(g.rem);
      }
      var chg := DomainUpdateChange(g.chg.registrant, if g.chg.authInfo.Some? then Some(g.chg.authInfo.value) else None);
      out := out.(domain := Some(DomainUpdate(g.xmlnsDomain, g.xmlnsXsi, g.schemaLocation, g.name, add, rem, chg)));
    }
    if g.xmlnsHost != "" {
      var add := TypedHostAddRemove(g.add);
      var rem := TypedHostAddRemove(g.rem);
      var chg: Option<HostUpdateChange> := None;
      if g.chg.name != "" {
        chg := Some(HostUpdateChange(g.chg.name));
      }
      out := out.(host := Some(HostUpdate(g.xmlnsHost, g.xmlnsXsi, g.schemaLocation, g.name, add, rem, chg)));
    }
  }

  /** Update.TypedMessage as the source writes it. */
  method TypedMessageAsWritten(u: Update) returns (out: Update)
    requires Convertible(u)
    ensures out == TypedUpdate(u.generic.value, true)
  {
    out := TypedMessageWith(u, true);
  }

  /** Update.TypedMessage keeping every host of the add and remove lists. */
  method TypedMessage(u: Update) returns (out: Update)
    requires Convertible(u)
    ensures out == TypedUpdate(u.generic.value, false)
  {
    out := TypedMessageWith(u, false);
  }

  /** A generic domain update adding two name servers. */
  function TwoHostUpdate(a: string, b: string): GenericUpdate
  {
    GenericUpdate(DomainXMLNS, "", "", W3XMLNSxsi, DomainSchema, "EXAMPLE.COM", "",
      GenericUpdateAddRemove([a, b], [], [], []), GenericUpdateAddRemove([], [], [], []),
      GenericUpdateChange("", "", None, None, None, "", None))
  }

  /** As written, converting an update that adds two name servers keeps only the second. */
  lemma TypedUpdateAsWrittenDropsHosts(a: string, b: string)
    ensures TypedUpdate(TwoHostUpdate(a, b), true).domain.value.add.hosts == Some([DomainHost(b)])
    ensures DomainHost(a) !in TypedUpdate(TwoHostUpdate(a, b), true).domain.value.add.hosts.value || a == b
  {
  }

  /**
   * The corrected conversion keeps every host of both lists, in order,
   * and agrees with the source whenever each list has at most one host.
   */
  lemma TypedUpdateKeepsHosts(g: GenericUpdate)
    requires g.xmlnsDomain != "" && (g.xmlnsContact != "" ==> ContactChangeComplete(g))
    ensures var d := TypedUpdate(g, false).domain.value;
      (d.add.hosts.Some? <==> |g.add.hosts| > 0) &&
      (d.add.hosts.Some? ==>
        |d.add.hosts.value| == |g.add.hosts| &&
        forall i :: 0 <= i < |g.add.hosts| ==> d.add.hosts.value[i].value == g.add.hosts[i]) &&
      (d.rem.hosts.Some? ==>
        |d.rem.hosts.value| == |g.rem.hosts| &&
        forall i :: 0 <= i < |g.rem.hosts| ==> d.rem.hosts.value[i].value == g.rem.hosts[i])
    ensures |g.add.hosts| <= 1 && |g.rem.hosts| <= 1 ==> TypedUpdate(g, false) == TypedUpdate(g, true)
  {
    if |g.add.hosts| == 1 {
      assert DomainHostsOf(g.add.hosts) == [DomainHost(g.add.hosts[0])];
    }
    if |g.rem.hosts| == 1 {
      assert DomainHostsOf(g.rem.hosts) == [DomainHost(g.rem.hosts[0])];
    }
  }

  /**
   * After conversion, a generic update with exactly one namespace is
   * classified as an update of that object type.
   */
  lemma TypedUpdateMessageType(g: GenericUpdate)
    requires g.xmlnsContact != "" ==> ContactChangeComplete(g)
    ensures g.xmlnsDomain != "" && g.xmlnsHost == "" && g.xmlnsContact == "" ==>
      MessageType(TypedUpdate(g, false)) == CommandUpdateDomainType
    ensures g.xmlnsDomain == "" && g.xmlnsHost != "" && g.xmlnsContact == "" ==>
      MessageType(TypedUpdate(g, false)) == CommandUpdateHostType
    ensures g.xmlnsDomain == "" && g.xmlnsHost == "" && g.xmlnsContact != "" ==>
      MessageType(TypedUpdate(g, false)) == CommandUpdateContactType
  {
  }
}
