// Shared values of the EPP package: the namespaces and object status
// values of epp/epp.go, the records that the create, info and update
// messages have in common, the generic records a received message is
// decoded into, the contact-type conversion and the namestore extension.

module EppBase {
  import opened Common

  // ---------------------------------------------------------------------
  // Namespaces

  const DomainXMLNS: string := "urn:ietf:params:xml:ns:domain-1.0"
  const DomainSchema: string := "urn:ietf:params:xml:ns:domain-1.0 domain-1.0.xsd"
  const HostXMLNS: string := "urn:ietf:params:xml:ns:host-1.0"
  const HostSchema: string := "urn:ietf:params:xml:ns:host-1.0 host-1.0.xsd"
  const ContactXMLNS: string := "urn:ietf:params:xml:ns:contact-1.0"
  const ContactSchema: string := "urn:ietf:params:xml:ns:contact-1.0 contact-1.0.xsd"
  const W3XMLNSxsi: string := "http://www.w3.org/2001/XMLSchema-instance"
  const EPPCommandXMLNS: string := "urn:ietf:params:xml:ns:epp-1.0"

  // ---------------------------------------------------------------------
  // Object status values (section 2.3 of RFC 5731, section 2.3 of RFC 5732)

  const StatusServerHold: string := "serverHold"
  const StatusClientHold: string := "clientHold"
  const StatusClientUpdateProhibited: string := "clientUpdateProhibited"
  const StatusClientDeleteProhibited: string := "clientDeleteProhibited"
  const StatusClientRenewProhibited: string := "clientRenewProhibited"
  const StatusClientTransferProhibited: string := "clientTransferProhibited"
  const StatusServerUpdateProhibited: string := "serverUpdateProhibited"
  const StatusServerDeleteProhibited: string := "serverDeleteProhibited"
  const StatusServerRenewProhibited: string := "serverRenewProhibited"
  const StatusServerTransferProhibited: string := "serverTransferProhibited"
  const StatusOK: string := "ok"
  const StatusLinked: string := "linked"
  const StatusPendingCreate: string := "pendingCreate"
  const StatusPendingDelete: string := "pendingDelete"
  const StatusPendingTransfer: string := "pendingTransfer"
  const StatusPendingUpdate: string := "pendingUpdate"
  const StatusPendingRenew: string := "pendingRenew"

  // ---------------------------------------------------------------------
  // Contact types

  datatype ContactType = Tech | Admin | Billing

  const ErrUnknownContactType: string := "unknown Contact Type"

  /** The wire name of a contact type. */
  function ContactTypeName(t: ContactType): string
  {
    match t
    case Tech => "tech"
    case Admin => "admin"
    case Billing => "billing"
  }

  /** ContactTypeFromString: the type whose name is `ct` lower-cased. */
  function ContactTypeFromString(ct: string): (r: Result<ContactType>)
    ensures r.Ok? <==> ToLower(ct) in {"tech", "admin", "billing"}
    ensures r.Ok? ==> ContactTypeName(r.value) == ToLower(ct)
    ensures r.Err? ==> r.msg == ErrUnknownContactType
  {
    var l := ToLower(ct);
    if l == "tech" then Ok(Tech)
    else if l == "admin" then Ok(Admin)
    else if l == "billing" then Ok(Billing)
    else Err(ErrUnknownContactType)
  }

  /** Each contact type is recognised from its name in lower or upper case. */
  lemma ContactTypeCaseInsensitive(t: ContactType)
    ensures ContactTypeFromString(ContactTypeName(t)) == Ok(t)
    ensures ContactTypeFromString(ToUpper(ContactTypeName(t))) == Ok(t)
  {
    var n := ContactTypeName(t);
    assert ToLower(n) == n;
    ToLowerOfUpper(n);
  }

  lemma ToLowerOfUpper(s: string)
    requires NoUpperAscii(s)
    ensures ToLower(ToUpper(s)) == s
  {
    assert forall i :: 0 <= i < |s| ==> LowerChar(UpperChar(s[i])) == s[i];
  }

  /** Strings that differ only in ASCII case are classified alike. */
  lemma ContactTypeIgnoresCase(a: string, b: string)
    requires ToLower(a) == ToLower(b)
    ensures ContactTypeFromString(a) == ContactTypeFromString(b)
  {
  }

  // ---------------------------------------------------------------------
  // Records shared by the typed messages

  datatype DomainPeriod = DomainPeriod(unit: string, value: int)
  datatype DomainContact = DomainContact(contactType: ContactType, value: string)
  datatype DomainHost = DomainHost(value: string)
  datatype HostAddress = HostAddress(ipVersion: string, address: string)
  datatype PhoneNumber = PhoneNumber(number: string, extension: string)
  datatype PostalInfoAddress = PostalInfoAddress(street: seq<string>, city: string, sp: string, pc: string, cc: string)
  datatype PostalInfo = PostalInfo(postalInfoType: string, name: string, org: string, address: PostalInfoAddress)
  datatype DSData = DSData(keyTag: int, alg: int, digestType: int, digest: string)

  const IPv4: string := "v4"
  const IPv6: string := "v6"

  // ---------------------------------------------------------------------
  // Generic records a received message is decoded into

  datatype GenericPhone = GenericPhone(extension: string, number: string)
  datatype GenericContact = GenericContact(contactType: string, value: string)
  datatype GenericHostAddr = GenericHostAddr(ipVersion: string, address: string)
  datatype GenericAddr = GenericAddr(streets: seq<string>, city: string, stateProv: string, postalCode: string, country: string)
  datatype GenericPostalInfo = GenericPostalInfo(postalType: string, name: string, org: string, addr: GenericAddr)

  /** The typed postal info a generic one is copied into. */
  function PostalInfoOf(g: GenericPostalInfo): (p: PostalInfo)
    ensures p.postalInfoType == g.postalType && p.name == g.name && p.org == g.org
    ensures p.address.street == g.addr.streets && p.address.city == g.addr.city
    ensures p.address.sp == g.addr.stateProv && p.address.pc == g.addr.postalCode && p.address.cc == g.addr.country
  {
    PostalInfo(g.postalType, g.name, g.org,
      PostalInfoAddress(g.addr.streets, g.addr.city, g.addr.stateProv, g.addr.postalCode, g.addr.country))
  }

  function PostalInfosOf(gs: seq<GenericPostalInfo>): (ps: seq<PostalInfo>)
    ensures |ps| == |gs| && forall i :: 0 <= i < |gs| ==> ps[i] == PostalInfoOf(gs[i])
  {
    seq(|gs|, i requires 0 <= i < |gs| => PostalInfoOf(gs[i]))
  }

  function PhoneOf(g: GenericPhone): PhoneNumber
  {
    PhoneNumber(g.number, g.extension)
  }

  /** Host names wrapped as domain host objects, in order. */
  function DomainHostsOf(hosts: seq<string>): (r: seq<DomainHost>)
    ensures |r| == |hosts| && forall i :: 0 <= i < |hosts| ==> r[i] == DomainHost(hosts[i])
  {
    seq(|hosts|, i requires 0 <= i < |hosts| => DomainHost(hosts[i]))
  }

  /** Received host addresses copied into typed ones, in order. */
  function HostAddressesOf(addrs: seq<GenericHostAddr>): (r: seq<HostAddress>)
    ensures |r| == |addrs| && forall i :: 0 <= i < |addrs| ==> r[i] == HostAddress(addrs[i].ipVersion, addrs[i].address)
  {
    seq(|addrs|, i requires 0 <= i < |addrs| => HostAddress(addrs[i].ipVersion, addrs[i].address))
  }

  /**
   * The domain contacts kept from a received contact list: those whose
   * type is recognised, in their original order.
   */
  function KnownContacts(cs: seq<GenericContact>): seq<DomainContact>
  {
    if cs == [] then []
    else
      var last := cs[|cs| - 1];
      var ct := ContactTypeFromString(last.contactType);
      KnownContacts(cs[..|cs| - 1]) + (if ct.Ok? then [DomainContact(ct.value, last.value)] else [])
  }

  lemma {:induction false} KnownContactsAppend(a: seq<GenericContact>, b: seq<GenericContact>)
    ensures KnownContacts(a + b) == KnownContacts(a) + KnownContacts(b)
    decreases |b|
  {
    if b == [] {
      assert a + b == a;
    } else {
      assert (a + b)[..|a + b| - 1] == a + b[..|b| - 1];
      KnownContactsAppend(a, b[..|b| - 1]);
    }
  }

  /**
   * Every kept contact comes from a received contact of a recognised type
   * with the same value; none is invented, and a list of recognised types
   * is kept whole.
   */
  lemma {:induction false} KnownContactsSound(cs: seq<GenericContact>)
    ensures |KnownContacts(cs)| <= |cs|
    ensures forall c :: c in KnownContacts(cs) ==>
      exists g :: g in cs && ContactTypeFromString(g.contactType) == Ok(c.contactType) && g.value == c.value
    ensures (forall i :: 0 <= i < |cs| ==> ContactTypeFromString(cs[i].contactType).Ok?) ==>
      |KnownContacts(cs)| == |cs|
    ensures (forall i :: 0 <= i < |cs| ==> ContactTypeFromString(cs[i].contactType).Err?) ==>
      KnownContacts(cs) == []
  {
    if cs != [] {
      var init := cs[..|cs| - 1];
      KnownContactsSound(init);
      assert forall g :: g in init ==> g in cs;
      assert forall i :: 0 <= i < |init| ==> init[i] == cs[i];
    }
  }

  // ---------------------------------------------------------------------
  // Namestore extension

  const NameStoreProductCOM: string := "dotCOM"
  const NameStoreProductNET: string := "dotNET"
  const NameStoreXMLNS: string := "http://www.verisign-grs.com/epp/namestoreExt-1.1"
  const NameStoreSchema: string := "http://www.verisign-grs.com/epp/namestoreExt-1.1 namestoreExt-1.1.xsd"

  datatype NameStoreExtension = NameStoreExtension(xmlnsNamestoreExt: string, xmlnsXsi: string, schemaLocation: string, subProducts: seq<string>)

  /** GetNameStoreExtension: the default namespaces and the one product. */
  function GetNameStoreExtension(product: string): (e: NameStoreExtension)
    ensures e.subProducts == [product]
    ensures e.xmlnsNamestoreExt == NameStoreXMLNS && e.schemaLocation == NameStoreSchema && e.xmlnsXsi == W3XMLNSxsi
  {
    NameStoreExtension(NameStoreXMLNS, W3XMLNSxsi, NameStoreSchema, [product])
  }

  /**
   * The extension a builder attaches to a command for an object name: the
   * .COM product is set first and the .NET product overrides it.
   */
  function SuffixExtension(name: string): (r: Option<NameStoreExtension>)
    ensures r.Some? <==> HasSuffix(name, ".COM") || HasSuffix(name, ".NET")
    ensures HasSuffix(name, ".COM") ==> r == Some(GetNameStoreExtension(NameStoreProductCOM))
    ensures HasSuffix(name, ".NET") ==> r == Some(GetNameStoreExtension(NameStoreProductNET))
  {
    var com := if HasSuffix(name, ".COM") then Some(GetNameStoreExtension(NameStoreProductCOM)) else None;
    if HasSuffix(name, ".NET") then Some(GetNameStoreExtension(NameStoreProductNET)) else com
  }
}
