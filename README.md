# go-registrar, modelled in Dafny

go-registrar is a registrar front end for a domain registry. Its object
library holds domains, hosts and contacts, and each object has a list of
revisions. Approvers are grouped in approver sets, and a change request
moves an object from one revision to the next once every required set has
approved it. API users get the same revision-and-approval treatment. Around
that library sit:

- the browser widgets of the web interface, which build lists of host
  addresses, DS records, hostnames, approver sets and approvers;
- the EPP message builders, the conversions between EPP and registrar
  objects, and a small EPP test server;
- the client's disk cache, the JSON API envelope and the database cache;
- the command-line tools that generate whois output, escrow deposits and
  provisioning files.

The Dafny model has one module per source file. The modules are `Common`,
`RegistrarObject`, `Browser`, `DomainRevision`, `HostRevision`, `Host`,
`Domain`, `Provision`, `ContactRevision`, `Core`, `ChangeRequest`,
`Approval`, `ApproverSet`, `ApproverSetRevision`, `ApproverRevision`,
`APIUserRevision`, `Approver`, `APIUser`, `Contact`, `EppBase`,
`EppResponse`, `EppCreate`, `EppUpdate`, `EppServer`, `Client`, `API`,
`DBCache`, `Whois`, `Escrow` and `Keyring`. `Common` holds the results,
string helpers and Go integer parsing that the other modules share.

Pure code is written as functions with lemmas about them. Code that
updates state in place is written as classes, and their methods state the
new state:

- `Browser.Page` is the web page's rows and lists;
- `Core.Model` is the shared object loader;
- `ChangeRequest.ChangeRequest` and `Approval.ApprovalObject` hold the
  approval state machines;
- `EppServer.Connection` is the test server's session;
- `Client.DiskCache`, `DBCache.Cache` and `Escrow.ContactQueue` are the
  caches.

Several inputs are taken as parameters of the model:

- database rows and their errors;
- the clock;
- the working directory;
- IP address parsing and resolution;
- JavaScript's `Number()`;
- the results of writes.

Go map iteration is modelled as the choice of any remaining key, so results
that depend on map order are stated as sets.

Behaviour worth knowing, as the code does it:

- `IsRegisterableDomain` accepts ".COM" itself, because the empty prefix
  contains no '.'.
- `ReadyForFinalApproval` holds when the final approval has already been
  approved and some other approval is still unsettled.
- The DS parse error message reads "nnable to parse DS Data Entry" (its
  first letter is missing), and the model keeps that text.
- The approver revision messages keep their "macth" spelling.
- An API user revision whose description differs is reported with the
  email-address message (lib/apiuserrevision.go:109-112).
- `DomainRevisionExport.Compare` does not fail a comparison on a class
  mismatch (lib/domainrevision.go:147-149).
- `DiffHostList` keeps scanning after a match. The result is the same as
  with a `break`.
- `GetConnectionURL` appears three times with the same body: in
  provision/main.go:190-195, in whois-generator/main.go:90-95 and in
  escrow-generator/main.go:82-87. It is modelled once, as
  `Common.GetConnectionURL`.
- The keyring code in lib/approverset.go:785-854 is repeated in
  lib/approversetrevision.go:131-200. It is modelled once, in `Keyring`.
- In the browser widgets, a host address can be pushed even while the
  feedback says "Incorrect Protocol Type". The row's id, title and
  submitted value then carry the selected protocol, not the address's own
  type (server/static/js/go-registrar.js:96-120).

## Model

| member | source | states |
|---|---|---|
| Common.CompareIdLists | lib/host.go:1323-1361 | two ID lists compare equal exactly when they have the same length and every ID of each occurs in the other |
| Common.LookUpAll | lib/host.go:1331-1343 | one pass of the nested `found` loops is true exactly when every element of the first list occurs in the second |
| Common.SameIdListsSymmetric | lib/host.go:1323-1361 | the comparison does not depend on the order of its arguments |
| Common.SameIdListsIgnoresMultiplicity | lib/host.go:1323-1361 | the comparison ignores multiplicities: [1,1,2] and [1,2,2] compare equal although their multisets differ |
| Common.ConnectionURLParts | provision/main.go:190-195 | the address starts with "https://" exactly when HTTPS is configured (otherwise "http://") and ends with the server, ':' and the decimal port |
| RegistrarObject.NewRegistrarObject | lib/registrarobject.go:387-421 | an object is returned exactly for the fourteen type names, and its GetType is the name asked for; any other name gives the error "Unknown object type" followed by the quoted name |
| RegistrarObject.FactoryInvertsGetType | lib/registrarobject.go:387-421 | the factory applied to an object kind's type name gives back that kind |
| RegistrarObject.PaddedNameRejected | lib/registrarobject.go:387-421 | type names are matched exactly: a leading or trailing space makes the name unknown |
| RegistrarObject.QuoteBodyPrintable | lib/registrarobject.go:418 | the quoted name in the error holds no control character: `%q` spells each one out as an escape |
| RegistrarObject.QuoteNewline | lib/registrarobject.go:418 | a newline in an unknown type name appears in the error as a backslash followed by 'n' |
| RegistrarObject.NotExportableGetDiff | lib/registrarobject.go:257-259 | always the error "unable to export this type" |
| RegistrarObject.NotExportableToJSON | lib/registrarobject.go:263-265 | always the error "unable to export this type" |
| RegistrarObject.RevisionActions | lib/domainrevision.go:694-727 | the action menu of a revision: state new offers start-approval, cancel and a parent or edit link; pending approval offers the change request, cancel and (on its own page) the parent; cancelled offers the change request and the parent; every other state nothing; the menu has 3/3/2/2/1/0 entries accordingly |
| RegistrarObject.RevisionMenuSize | lib/domainrevision.go:694-727 | the parent link never collides with the fixed entries, so the menu has the tabulated number of entries |
| RegistrarObject.RevisionMenuFollowsState | lib/domainrevision.go:694-727 | start-approval is offered exactly in state new, the change request exactly once approval has started (pending or cancelled), cancel exactly while new or pending |
| RegistrarObject.RevisionFormState | lib/apiuserrevision.go:517-523 | the state a form asks for is inactive exactly when it says inactive, and active otherwise (nothing else can be chosen) |
| RegistrarObject.HasHappened | lib/domainrevision.go:540-572 | true exactly when the named event's timestamp is set and not before the creation time |
| RegistrarObject.HasHappenedEdges | lib/domainrevision.go:540-572 | unknown event names and unset timestamps never count as happened; an update at the creation instant does |
| RegistrarObject.ExportToJSON | lib/domain.go:222-230 | an export whose ID is not positive is refused with the export's ID error; otherwise the JSON encoding is returned |
| RegistrarObject.RunCompare | lib/domainrevision.go:123-260 | a field-by-field compare passes exactly when every field agrees and reports the messages of the differing fields in order |
| RegistrarObject.FailedMessages | lib/domainrevision.go:123-260 | no message is reported exactly when all fields agree; at most one message per field; every reported message is that of a differing field and vice versa |
| Browser.OctetMeaning | server/static/js/go-registrar.js:1-8 | one field of the IPv4 expression is exactly the canonical decimal text of a number up to 255 |
| Browser.DottedQuadIsIPv4 | server/static/js/go-registrar.js:1-8 | every dotted quad of four numbers up to 255 is accepted as an IPv4 address |
| Browser.IPv4IsDottedQuad | server/static/js/go-registrar.js:1-8 | every accepted IPv4 address is such a dotted quad |
| Browser.IPv4Alphabet | server/static/js/go-registrar.js:1-8 | an accepted IPv4 address holds only digits and dots |
| Browser.IPv6CoreHasColon | server/static/js/go-registrar.js:10-17 | every alternative of the IPv6 expression contains a ':' |
| Browser.IPv4IsNotIPv6 | server/static/js/go-registrar.js:1-17 | no text is accepted by both the IPv4 and the IPv6 test |
| Browser.LoopbackIsIPv6 | server/static/js/go-registrar.js:10-17 | "::1" is accepted as an IPv6 address |
| Browser.GetAddressType | server/static/js/go-registrar.js:19-26 | the type is "6" exactly for IPv6 addresses and "unknown" exactly for text neither test accepts |
| Browser.AddressTypeOfIPv4 | server/static/js/go-registrar.js:19-26 | the type is "4" exactly for IPv4 addresses, although IPv6 is tried first |
| Browser.ValidIffKnownType | server/static/js/go-registrar.js:19-31 | an address is valid exactly when its type is not "unknown" |
| Browser.EmptyIsNotAnAddress | server/static/js/go-registrar.js:1-31 | the empty text is not a valid address |
| Browser.DecimalKeyTag | server/static/js/go-registrar.js:291-299 | a decimal key tag is accepted exactly when it is at most 65535 |
| Browser.StrippedDigest | server/static/js/go-registrar.js:186-194 | a digest stripped of white space is accepted exactly when it is a non-empty alphanumeric text |
| Browser.DecimalIdIsANumber | server/static/js/go-registrar.js:308-340 | a decimal database id always passes the controllers' `isNaN(parseInt(id))` check |
| Browser.HostFeedback | server/static/js/go-registrar.js:33-90 | the feedback is good exactly for an empty box or a valid address whose type the selected protocol names; it is empty exactly for an empty box; a valid address is announced with its type |
| Browser.DSFeedback | server/static/js/go-registrar.js:258-289 | the feedback is good exactly when both the key tag and the digest are valid, and opens with the key-tag verdict |
| Browser.SoftRemove | server/static/js/go-registrar.js:143-160 | removal keeps every row and every title, and drops only the removed row's submitted value |
| Browser.RemoveThenRestore | server/static/js/go-registrar.js:143-184 | removing a row and restoring it with its title and value gives back the page as it was |
| Browser.HostRowIdAlphabet | server/static/js/go-registrar.js:92-141 | the address part of a host row id holds neither '.' nor ':' |
| Browser.Page.constructor | server/static/js/go-registrar.js:1-664 | an empty page: no rows, no lists, empty input boxes and messages |
| Browser.Page.HostEntryChangeEvent | server/static/js/go-registrar.js:33-90 | the host message becomes the feedback for the address box and the selected protocol |
| Browser.Page.PushHostAddress | server/static/js/go-registrar.js:92-141 | an invalid address or protocol changes nothing; a valid one adds its row (or restores a removed one), lists a new row once, clears the box and the message |
| Browser.Page.AddHostRow | server/static/js/go-registrar.js:98-133 | a new address is appended to the host list; one already on the page is restored in place |
| Browser.Page.RemoveHostAddress | server/static/js/go-registrar.js:143-160 | the row is struck through: its submitted value is dropped, nothing else changes |
| Browser.Page.ReaddHostAddress | server/static/js/go-registrar.js:162-184 | the row gets back its title and submitted value, rebuilt from the address |
| Browser.Page.DSEntryChangeEvent | server/static/js/go-registrar.js:258-289 | the DS message becomes the feedback for the key-tag and digest boxes |
| Browser.Page.PushDSEntryAsWritten | server/static/js/go-registrar.js:186-214 | as written: a valid entry already on the page is restored with the key tag as both title and value; a new one is appended; invalid input changes nothing |
| Browser.Page.PushDSEntry | server/static/js/go-registrar.js:186-214 | corrected: a valid entry is added or restored with its DS value as title and value; invalid input changes nothing |
| Browser.Page.RemoveDSEntry | server/static/js/go-registrar.js:216-233 | the DS row is struck through and its value dropped |
| Browser.Page.ReaddDSEntry | server/static/js/go-registrar.js:235-256 | the DS row gets the value back as both title and submitted value |
| Browser.Page.PushHostname | server/static/js/go-registrar.js:308-340 | "none" or a non-numeric id changes nothing; otherwise the hostname row is appended, or restored with its title kept |
| Browser.Page.RemoveHostname | server/static/js/go-registrar.js:342-365 | a non-numeric id changes nothing; otherwise the row is struck through |
| Browser.Page.ReaddHostname | server/static/js/go-registrar.js:367-391 | a non-numeric id changes nothing; otherwise the row gets its id back, title kept |
| Browser.Page.PushApproverSet | server/static/js/go-registrar.js:393-445 | an unknown kind, "none" or a non-numeric id changes nothing; otherwise the approver-set row of that kind is appended, or restored with its title kept |
| Browser.Page.RemoveApproverSet | server/static/js/go-registrar.js:447-488 | the id is checked before the kind; a valid pair strikes the row through |
| Browser.Page.ReaddApproverSet | server/static/js/go-registrar.js:490-532 | a valid pair restores the row's id, title kept; anything else changes nothing |
| Browser.Page.PushApprover | server/static/js/go-registrar.js:534-570 | "none" or a non-numeric id changes nothing; otherwise the approver row is appended, or restored with its title kept |
| Browser.Page.RemoveApprover | server/static/js/go-registrar.js:572-595 | a non-numeric id changes nothing; otherwise the row is struck through |
| Browser.Page.ReaddApprover | server/static/js/go-registrar.js:597-622 | a non-numeric id changes nothing; otherwise the row gets its id back, title kept |
| Browser.HostPushRemoveReadd | server/static/js/go-registrar.js:92-184 | push, remove and undo leave the host row with the pushed title and value; pushing again after a removal does the same |
| Browser.DSRepushAsWrittenLosesEntry | server/static/js/go-registrar.js:186-214 | as written: re-pushing a removed DS entry leaves the row with the key tag alone as title and value, not the DS value |
| Browser.DSRepushRestores | server/static/js/go-registrar.js:186-256 | corrected: re-pushing or undoing a removed DS entry gives the pushed row back exactly |
| Browser.IdRowPushRemoveReadd | server/static/js/go-registrar.js:308-391 | removing and undoing a hostname, approver-set or approver row gives back the pushed row |
| DomainRevision.ParseDSForm | lib/domainrevision.go:1531-1604 | a form value parses exactly when it has four ':'-separated tokens: a key tag in 1..65535, an algorithm and a digest type registered in the DNSSEC maps (lines 1718-1753), and a non-empty alphanumeric digest; the entry is valid, holds those numbers and the digest upper-cased; every failure is ErrUnableToParseDSDataEntry |
| DomainRevision.DSDataEntry.ParseFromFormValue | lib/domainrevision.go:1531-1604 | fails exactly when ParseDSForm does; the new fields are AfterParse of the old ones: each field is written as soon as its token is read, those after the first failing check keep their old values |
| DomainRevision.DSDataEntry.constructor | lib/domainrevision.go:1680 | a fresh entry has every field zero or empty |
| DomainRevision.AfterParseAccepted | lib/domainrevision.go:1531-1604 | after a successful parse the receiver holds the parsed entry with its own IDs, whatever it held before |
| DomainRevision.BadAlgorithmOverwrites | lib/domainrevision.go:1536-1560 | a rejected entry can still have overwritten fields: a valid key tag and an unparsable algorithm leave the new key tag and algorithm 0 behind |
| DomainRevision.ParseOfFormValue | lib/domainrevision.go:1531-1616 | parsing the form value of a valid entry gives the entry back, with the IDs of a fresh entry |
| DomainRevision.FormValueOfParse | lib/domainrevision.go:1531-1616 | for canonical decimal fields and an upper-case digest, the form value of the parsed entry is the text parsed |
| DomainRevision.DivNameAgreesWithBrowser | lib/domainrevision.go:1608-1622 | FormDivName is FormValue with ':' replaced by '-', which is the browser's row id; FormValue is the browser's hidden value; DisplayName is FormValue |
| DomainRevision.ServerRejectsKeyTagZero | lib/domainrevision.go:1536-1549 | a key tag of 0 is rejected, although the browser's key tag check accepts it |
| DomainRevision.ParseDSDataEntries | lib/domainrevision.go:1673-1691 | the entries are exactly AcceptedDS of the form values and the errors exactly RejectedDS (one wrapped error per rejected value), both in input order |
| DomainRevision.ParseDSListsAppend | lib/domainrevision.go:1673-1691 | parsing a concatenation concatenates the accepted entries and the errors |
| DomainRevision.ParseDSListsAccount | lib/domainrevision.go:1673-1691 | every value gives exactly one entry or one error; every entry is valid and is the parse of one of the values |
| DomainRevision.CompareDSDataEntries | lib/domainrevision.go:1628-1665 | true exactly when both lists have the same length and each ID of each list occurs in the other |
| DomainRevision.GetSelectedDomainClass | lib/domainrevision.go:1203-1231 | typed text is accepted only with the selector on "other" and text other than "other"; without text the three named classes pass through; "other" without text and typed text with another selection give their errors |
| DomainRevision.SelectedClassProperties | lib/domainrevision.go:1190-1231 | an accepted class is never empty nor "other"; without typed text it is the selected one and shows as selected; typed "parked" with "other" selected is accepted as parked |
| DomainRevision.ExactlyOneChoiceSelected | lib/domainrevision.go:1190-1197 | whatever the revision's class, exactly one of the four selector choices shows as selected |
| DomainRevision.GetActions | lib/domainrevision.go:694-727 | the shared revision menu with "Domain" as the parent, of the tabulated size |
| DomainRevision.ActionsFollowEditability | lib/domainrevision.go:694-742 | start-approval is offered exactly when the revision is editable; a cancelled revision offers the change request and no cancel |
| DomainRevision.GetPreviewHostnames | lib/domainrevision.go:746-754 | the preview is every hostname followed by a newline, in order |
| HostRevision.ParseHostForm | lib/hostrevision.go:938-962 | a form value parses exactly when it has two '-'-separated tokens, the first "v4" or "v6" and the second an address the resolver accepts; the result carries that address and protocol; every failure is ErrUnableToParseHostAddress |
| HostRevision.HostAddress.ParseFromFormValue | lib/hostrevision.go:938-962 | fails exactly when ParseHostForm does; the new fields are AfterHostParse of the old ones: the protocol is written before the address is checked, the address only on success |
| HostRevision.HostAddress.constructor | lib/hostrevision.go:1042 | a fresh host address has zero IDs, no address and protocol 0 |
| HostRevision.AfterHostParseOutcome | lib/hostrevision.go:938-962 | after a successful parse the receiver holds the parsed address with its own IDs; when only the address check fails, the protocol has still been overwritten |
| HostRevision.ParseOfFormValue | lib/hostrevision.go:938-975 | parsing the form value "v<p>-<ip>" of a protocol-4 or -6 address without '-' that resolves gives the address back (IDs zero) |
| HostRevision.FormValueOfParse | lib/hostrevision.go:938-975 | formatting a successfully parsed value gives the text that was parsed |
| HostRevision.IdentityAgreesWithBrowser | lib/hostrevision.go:966-984 | the div name, form value and display name the server writes are the row id, value and title the browser script builds for the same address |
| HostRevision.DivNameOnlyForKnownProtocols | lib/hostrevision.go:978-984 | the div name is non-empty exactly for protocols 4 and 6 |
| HostRevision.ParseHostAddresses | lib/hostrevision.go:1035-1055 | the accepted addresses are exactly AcceptedHosts of the form values and the errors exactly RejectedHosts, both in input order |
| HostRevision.ParseHostListsAppend | lib/hostrevision.go:1035-1055 | parsing a concatenation concatenates both the accepted addresses and the errors |
| HostRevision.ParseHostListsAccount | lib/hostrevision.go:1035-1055 | every value gives exactly one address or one error, and every accepted address has protocol 4 or 6 and resolves |
| HostRevision.CompareHostAddressLists | lib/hostrevision.go:990-1026 | true exactly when the two lists have the same length and each ID of each list occurs in the other |
| HostRevision.GetPreviewIPs | lib/hostrevision.go:361-369 | the preview is every address followed by a newline, in order |
| HostRevision.GetActions | lib/hostrevision.go:309-342 | the shared revision menu with "Host" as the parent, of the tabulated size |
| Host.FindEqual | lib/host.go:1531-1537 | the inner scan finds an address exactly when some element of the list parses to the same IP |
| Host.DiffIPLists | lib/host.go:1527-1561 | `remove` is the current addresses with no equal expected address and `add` the expected addresses with no equal current address, each in its list's order |
| Host.UnmatchedMembers | lib/host.go:1527-1561 | an address is reported exactly when it is in its list and equals nothing in the other, and no list grows |
| Host.UnmatchedEmpty | lib/host.go:1527-1561 | nothing is reported exactly when every element has an equal in the other list |
| Host.DiffSelfEmpty | lib/host.go:1527-1561 | diffing a list against itself yields no additions and no removals |
| Host.DiffSwap | lib/host.go:1527-1561 | swapping the current and the expected list swaps the additions and the removals |
| Host.DiffEmptyIffSameAddresses | lib/host.go:1527-1561 | both halves of the diff are empty exactly when the two lists denote the same set of IP addresses |
| Host.UnparsableAddressesMatch | lib/host.go:1527-1561 | two texts that are not IP addresses both parse to nil and so compare as equal |
| Host.DiffIPsExport | lib/host.go:1488-1522 | without host info in the registry response the result is the "empty host info" error; otherwise IPv4 and IPv6 are diffed separately, the registry's addresses grouped by IP version and the registrar's by protocol 4 or 6 |
| Host.OfVersionMembers | lib/host.go:1500-1507 | the registry's addresses of one version are exactly those whose entry carries that version |
| Host.OfProtocolMembers | lib/host.go:1509-1516 | the registrar's addresses of one protocol are exactly those whose record carries that protocol |
| Host.ExportChangesV4 | lib/host.go:1488-1522 | an IPv4 address is added exactly when the registrar holds it and no registry IPv4 address equals it, and removed exactly when the registry holds it and no registrar IPv4 address equals it |
| Host.Host.EPPMatchesExpected | lib/host.go:841-921 | the verdict of the host's current revision against the info response: invalid without host info, then a pending state, client flags, server flags, the first missing and the first additional address, else "Provisioned" |
| Host.VerdictProvisionedIff | lib/host.go:841-921 | a host is provisioned exactly when the response is complete, nothing is pending, all six prohibition flags agree and both sides hold the same addresses; the state reads "Provisioned" exactly then, and any pending status wins over flag mismatches |
| Host.CollectFlags | lib/host.go:859-882 | each of the ten collected flags is set exactly when its status value occurs in the response |
| Host.FlagsDecide | lib/host.go:884-898 | the collected flags decide the pending, client-flag and server-flag checks as the statuses do |
| Host.CollectRevisionIPs | lib/host.go:903-905 | the revision's addresses are gathered in order |
| Host.CollectRegistryIPs | lib/host.go:907-909 | the registry's addresses are gathered in order |
| Host.Host.constructor | lib/host.go:1168-1186 | a new host is not held and its hold fields are consistent |
| Host.Host.UpdateHoldStatus | lib/host.go:1168-1186 | releasing clears holder, time and reason; holding with an empty reason fails with "a hold reason must be set" and changes nothing; otherwise the hold is set with that reason, holder and time; name and revision never change |
| Host.EppAddressRoundTrip | lib/host.go:934-952 | a stored address of protocol 4 or 6 prints its display name, form value and div name exactly as the revision's address does, and the revision's form parser reads the form value back to the same address |
| Host.EppDivNameOnlyForKnownProtocols | lib/host.go:946-952 | the div name is non-empty exactly for protocols 4 and 6 |
| Host.ParseHostList | lib/host.go:1216-1252 | every token that is not an integer is named in one "unable to parse" error while the hosts found are still returned; a failed lookup ends the scan with that error and no hosts |
| Host.ScanChunk | lib/host.go:1226-1243 | the scan of one submitted value continues the scan of the values before it, stopping at the first failed lookup |
| Host.ScanStaysStopped | lib/host.go:1233-1235 | once a lookup has failed, later tokens change nothing |
| Host.TokensAppend | lib/host.go:1225-1226 | the tokens of two runs of submitted values are the tokens of each, in order |
| Host.ScanFindsHosts | lib/host.go:1216-1252 | when every lookup succeeds, the scan finds one host per integer token, in order, each the lookup of its token |
| Host.ScanReportsBadTokens | lib/host.go:1216-1252 | when every lookup succeeds, parsing fails exactly when some token is not an integer, every such token is named after a space, and each token is counted once |
| Host.CompareToHostListExportShortList | lib/host.go:1280-1318 | true exactly when the host list and the export list have equal length and each list's IDs all occur in the other |
| Host.CompareToHostExportShortLists | lib/host.go:1323-1361 | true exactly when the two export lists have equal length and each list's IDs all occur in the other |
| Domain.RegisterableDomainSuffix | lib/domain.go:1582-1594 | the result is "" exactly when the name ends with no valid zone; otherwise it is a valid zone the name ends with, and no longer zone matches |
| Domain.LastIndexOfSuffix | lib/domain.go:1601-1602 | the last occurrence of the matched zone is at the end of the name, so the subdomain part is the name without the zone |
| Domain.IsRegisterableDomain | lib/domain.go:1598-1613 | "no valid zone found" exactly when the name ends with no zone of the list, "cannot register a subdomain" exactly when the part before its zone holds a dot, and true otherwise |
| Domain.SuffixUnique | lib/registrarobject.go:383 | the zones ".COM" and ".NET" cannot both end a name, so the matched zone is unique |
| Domain.BareZoneAccepted | lib/domain.go:1598-1613 | the bare zone ".COM" is accepted: the empty part before it holds no dot |
| Domain.KeyMapContents | lib/domain.go:1295-1309 | the DS map files every record under its own "%d:%d:%d:%s" key and holds no other record |
| Domain.DSKeyInjective | lib/domain.go:1300-1307 | two DS records with the same key text are the same record |
| Domain.CollectUnexpected | lib/domain.go:1311-1337 | the loop over one map's keys collects, each once, exactly the records whose key the other map lacks |
| Domain.DiffDomainDSData | lib/domain.go:1288-1340 | with no registry response the "Domain info section" error; otherwise the expected records the registry lacks are to be added and the registry's records that are not expected are to be removed, each once |
| Domain.DSChangesAreDifferences | lib/domain.go:1288-1340 | the records to add are the expected set minus the registry's, those to remove the registry's set minus the expected; without a DNSSEC extension every expected record is to be added |
| Domain.UnexpectedIsDifference | lib/domain.go:1311-1337 | comparing by key text is comparing the records as values |
| Domain.Domain.EPPMatchesExpected | lib/domain.go:1135-1282 | the verdict of the domain's current revision against the info response, in the source's order: invalid response, pending state, client flags, host counts, missing host, additional host, missing DS, additional DS, server flags, else "Provisioned" |
| Domain.VerdictProvisionedIff | lib/domain.go:1135-1282 | a domain is provisioned exactly when the response is complete, nothing is pending, all ten flags agree, the host lists have equal length and each host of either is on the other, and both sides hold the same DS records; the state reads "Provisioned" exactly then |
| Domain.HostMismatchIff | lib/domain.go:1218-1254 | the host check passes exactly when the two lists have equal length and each one's hosts all occur in the other, and a failure never reads "Provisioned" |
| Domain.DSMismatchIff | lib/domain.go:1258-1270 | the DS check passes exactly when both sides hold the same set of DS records |
| Domain.CollectFlags | lib/domain.go:1159-1192 | each of the fifteen collected flags is set exactly when its status value occurs in the response |
| Domain.FlagsClassify | lib/domain.go:1194-1204 | the collected flags decide the pending, client-flag and server-flag checks as the statuses do |
| Domain.ClassifyStatuses | lib/domain.go:1159-1204 | pending, client-flag agreement and server-flag agreement as the statuses and the revision determine them |
| Domain.EppHostNames | lib/domain.go:1210-1212 | the registry's name-server names are gathered in order |
| Domain.CopyHosts | lib/domain.go:1214-1216 | the revision's host names are gathered unchanged and in order |
| Domain.FindHost | lib/domain.go:1227-1233 | the found loop succeeds exactly when the host is in the other list |
| Domain.FirstMissingHost | lib/domain.go:1224-1238 | the first host of one list that the other lacks, or none |
| Domain.CheckHosts | lib/domain.go:1220-1254 | a count mismatch is reported first, then the first revision host the registry lacks ("Missing Host"), then the first registry host the revision lacks ("Additional Host"); nothing when the lists agree |
| Domain.CheckDS | lib/domain.go:1258-1270 | "Missing DS Record(s)" when an expected record is absent, else "Additional DS Record(s) found" when an unexpected one is present, else no failure |
| Domain.Domain.constructor | lib/domain.go:26-111 | a new domain has no current revision, WHOIS statuses or hold |
| Domain.SuggestedWithoutRevision | lib/domain.go:439-498 | without a current revision a new revision is suggested parked, external exactly when the domain was created external and active otherwise, never inactive or with client hold; a new domain is editable |
| Domain.SuggestedClassExactlyOne | lib/domain.go:439-498 | with a current revision exactly one of the four domain classes is suggested, "Other" exactly when the revision's class is none of the named three |
| Domain.Domain.WHOISHasStatus | lib/domain.go:820-838 | true exactly when some newline-separated WHOIS status equals the given status ignoring case |
| Domain.WHOISStatusIgnoresCase | lib/domain.go:828-838 | statuses that differ only in letter case match the same flags |
| Domain.Domain.UpdateHoldStatus | lib/domain.go:1561-1578 | releasing clears holder, time and reason; holding with an empty reason fails with "a hold reason must be set" and changes nothing; otherwise the hold is set with that reason, holder and time; nothing else changes |
| Domain.EppEntryRoundTrip | lib/domain.go:2158-2172 | a stored DS entry prints its form value, div name and display name as a revision entry does and as the DS diff keys it, and a valid one reads back through the revision's form parser |
| Domain.EppEntryFormValueInjective | lib/domain.go:2164-2166 | distinct DS entries have distinct form values |
| Provision.GetParentDomain | provision/main.go:595-612 | "Invalid Hostname" exactly when the name has at most two labels; success exactly when it has more and its last label is COM or NET; otherwise "Unhandled TLD" with that label |
| Provision.JoinAppend | provision/main.go:608-609 | joining two runs of labels is joining each with the separator between |
| Provision.ParentDomainLabels | provision/main.go:608-609 | the parent is the name's last two labels joined by a dot |
| Provision.ParentDomainSuffix | provision/main.go:595-612 | the name is the labels before the parent, a dot and the parent |
| Provision.ParentDomainIsSuffix | provision/main.go:595-612 | the name ends with a dot and its parent |
| Provision.ParentDomainSplit | provision/main.go:595-612 | the parent splits into exactly the name's last two labels |
| Provision.ParentDomainEndsWithTLD | provision/main.go:595-612 | the parent ends with a dot and the top-level label |
| Provision.ParentDomainShape | provision/main.go:595-612 | the parent is a suffix of the name made of its last two labels, ending in COM or NET |
| Provision.ParentDomainStable | provision/main.go:595-612 | a parent domain has no parent of its own, and adding a label in front of a name keeps its parent |
| Provision.BinStatus | provision/main.go:1120-1128 | an unset difference leaves both lists; a set one appends the status to the list to add when it is wanted and to the list to remove otherwise |
| Provision.Missing | provision/main.go:1383-1404 | the elements of one list that the other lacks, never more than the list has |
| Provision.Found | provision/main.go:1385-1389 | the found loop succeeds exactly when the element is in the other list |
| Provision.CollectMissing | provision/main.go:1383-1393 | one outer loop gathers exactly the elements the other list lacks, in order |
| Provision.DiffHostList | provision/main.go:1367-1407 | with no domain info the "Domain info section" error; otherwise the name servers to remove are the registry's that the revision lacks and those to add the revision's that the registry lacks, in order |
| Provision.HostChangesReconcile | provision/main.go:1367-1407 | applying the removals and additions makes the registry's name servers exactly the revision's, and there is nothing to change exactly when both sides name the same servers |
| Provision.Change | provision/main.go:1440-1454 | a flag needs a change exactly when the registrar's value differs from the registry's, and then to the registrar's value |
| Provision.StatusesPresent | provision/main.go:1425-1438 | each listed status is flagged exactly when the registry reports it |
| Provision.DiffDomainStatuses | provision/main.go:1413-1457 | with no domain info the "Domain info section" error; otherwise each of the five client statuses changes exactly when the registrar's flag differs from the registry's, to the registrar's flag |
| Provision.DiffHostStatuses | provision/main.go:1463-1489 | with no host info the "Host info section" error; otherwise the update and delete statuses change exactly when the registrar's flag differs, to the registrar's flag |
| Provision.BinDomainStatuses | provision/main.go:997-1001 | the five status changes are binned in order into the flags to add and to remove |
| Provision.BinnedMembers | provision/main.go:1120-1128 | a status is binned on one side exactly when some change asks for that side |
| Provision.BinnedAt | provision/main.go:1120-1128 | with distinct statuses, a status is binned on a side exactly when its own change asks for it |
| Provision.BinnedDisjoint | provision/main.go:1120-1128 | distinct statuses are never both added and removed |
| Provision.FlagReconciled | provision/main.go:1413-1457 | once binned, a status whose change follows the rule is in force afterwards exactly when the registrar wants it |
| Provision.DomainStatusesReconcile | provision/main.go:1413-1457 | applying the binned flags to the registry's statuses puts each of the five client statuses in force exactly when the registrar's revision sets it, and none is both added and removed |
| ContactRevision.FormatNumberForDisplay | lib/contactrevision.go:434-440 | the display starts with the number and is the number alone exactly when the extension is empty |
| ContactRevision.NumberDisplaySplits | lib/contactrevision.go:434-440 | with an extension free of "x", the last "x" of the display separates the number from the extension, so both read back |
| ContactRevision.LocalityLineShape | lib/contactrevision.go:1354-1370 | the locality line is "City, State" when both are set and their concatenation otherwise, then a space and the postal code when either is set, the postal code alone otherwise; it is empty exactly when city, state and postal code all are |
| ContactRevision.AddressPartsNonEmpty | lib/contactrevision.go:1339-1381 | every address part is non-empty, and there are none exactly when every field is empty |
| ContactRevision.TerminatedSnoc | lib/contactrevision.go:1342-1376 | appending a part appends it and the separator to the text |
| ContactRevision.TerminatedConcat | lib/contactrevision.go:1342-1376 | the text of two runs of parts is the text of each, in order |
| ContactRevision.TerminatedIsJoin | lib/contactrevision.go:1342-1376 | each part followed by the separator is the parts joined by the separator, plus one trailing separator |
| ContactRevision.JoinWithEnds | lib/contactrevision.go:1378-1380 | a join begins with its first part and ends with its last |
| ContactRevision.JoinFramed | lib/contactrevision.go:1378-1380 | a join whose outer parts do not begin or end with a trimmed character does not either |
| ContactRevision.BuildLocalityLine | lib/contactrevision.go:1354-1370 | the locality line as both formatters build it, never empty when a locality field is set |
| ContactRevision.TerminatedStreets | lib/contactrevision.go:1342-1352 | each non-empty street, in order, followed by the separator |
| ContactRevision.TerminatedParts | lib/contactrevision.go:1342-1376 | the text both formatters grow step by step is each address part followed by the separator |
| ContactRevision.FullAddress | lib/contactrevision.go:1339-1381 | the address parts each on a line, with the newlines at both ends trimmed |
| ContactRevision.FullAddressEmpty | lib/contactrevision.go:1339-1381 | an address with every field empty gives "" |
| ContactRevision.PartsNoNewline | lib/contactrevision.go:1354-1370 | when no field holds a newline, no part does |
| ContactRevision.FullAddressLines | lib/contactrevision.go:1339-1381 | when no field holds a newline, the full address splits into exactly the non-empty streets, the locality line and the country, in that order |
| ContactRevision.EscrowAddress | lib/contactrevision.go:1412-1454 | the address parts each followed by ", ", then spaces, commas and spaces trimmed from both ends; the export's EscrowAddress at lib/contactrevision.go:444-485 has the same body |
| ContactRevision.EscrowAddressEmpty | lib/contactrevision.go:1412-1454 | an address with every field empty gives "" |
| ContactRevision.EscrowAddressIsJoin | lib/contactrevision.go:444-485 | when the address does not begin or end with white space or a comma, the escrow line is exactly its parts joined by ", " |
| ContactRevision.AddressFormsAgree | lib/contactrevision.go:1339-1454 | the full address and the escrow line list the same parts and differ only in the separator |
| ContactRevision.GetActions | lib/contactrevision.go:718-752 | the shared revision menu with the contact as parent, one entry per action its state and self-view allow |
| ContactRevision.ActionsFollowEditability | lib/contactrevision.go:718-752 | approval can start exactly when the revision is new; a cancelled revision offers its change request and no cancel |
| ContactRevision.GetPreviewName | lib/contactrevision.go:770-772 | the preview starts with the name, ends with the organisation and has one character between |
| ContactRevision.PreviewNameLines | lib/contactrevision.go:770-772 | with no newline in the name or the organisation, the preview splits back into exactly the two |
| Core.LoadResult | lib/core.go:135-145 | nothing to report once loaded; the "must be greater than 0" error for an ID that is not positive; otherwise the database's answer |
| Core.OwnWork | lib/core.go:289-302 | a callback run while its object is in progress does no more work than it has steps |
| Core.Model.constructor | lib/core.go:104-122 | a new model carries its ID and is neither loaded, prepared nor in progress |
| Core.Model.SetID | lib/core.go:110-122 | a set ID gives "ID has already been set", a new ID that is not positive gives "IDs must be greater than 0", and in both cases the ID is kept; otherwise the ID becomes the new one |
| Core.Model.Load | lib/core.go:135-145 | a loaded record is not read again; otherwise the ID error or the database's answer, and a successful read marks the record loaded and clears prepared, as the after-find hook at lib/core.go:400-421 does |
| Core.Model.PrepareBase | lib/core.go:157-178 | a prepared object is returned at once; otherwise the load error, then the callback's error, and the object is prepared exactly when neither failed |
| Core.Model.HandleInProgress | lib/core.go:289-302 | the callback runs only when the object is not already in progress, so nested calls do nothing, and the in-progress flag is as before afterwards |
| Core.Model.RunSteps | lib/core.go:289-302 | the callback, run with the flag set, does exactly its own work items, in order |
| Core.NestedCallsDoNothing | lib/core.go:289-302 | a callback made only of nested calls on the same object does nothing |
| Core.OwnWorkOfWork | lib/core.go:289-302 | every work item of the callback is done, in order |
| Core.NullInt64MatchIff | lib/core.go:464-484 | two values match exactly when both are null, or both are set to the same integer; the difference text is empty exactly on a match; matching is symmetric |
| Core.NullInt64DiffNamesExpected | lib/core.go:464-484 | on a mismatch the text names the expected value first ("Expected: <a> Got: " or "Expected: none Got: <b>") |
| Core.GetCaseInsensitiveHeader | lib/core.go:706-720 | the first value of some header whose name equals the wanted one ignoring case and which has a value, visited in no fixed order, or "" when there is none |
| Core.HeaderValueUnique | lib/core.go:706-720 | with at most one matching header the value found is determined |
| Core.GetRemoteUser | lib/core.go:671-681 | the REMOTE_USER header's value when it is non-empty, otherwise the "no user set" error |
| Core.EmailAddressShape | lib/core.go:689-702 | the shape of the address in both cases |
| Core.GetRemoteUserEmail | lib/core.go:689-702 | the "no user set" error when REMOTE_USER is missing; otherwise the address of that user with REMOTE_USER_ORG as organisation |
| Core.GetActiveInactive | lib/core.go:746-752 | "inactive" is kept and anything else becomes "active" |
| Core.GetActiveInactiveExternal | lib/core.go:758-768 | "inactive" and "external" are kept and anything else becomes "active" |
| Core.GetActiveNewExternal | lib/core.go:773-779 | "new-external" is kept and anything else becomes "new" |
| Core.NormalisersStable | lib/core.go:746-779 | each normaliser is idempotent and keeps exactly its allowed states |
| Core.GetCheckboxState | lib/core.go:784-790 | a checked box equals "on" ignoring case |
| Core.CheckboxCasings | lib/core.go:784-790 | exactly "on", "On" and "ON" are accepted; "oN", "", "true" and "off" are not |
| ChangeRequest.ApprovalExportInjective | lib/approval.go:129-143 | the approval export keeps every exported field, so distinct approvals have distinct exports |
| ChangeRequest.CountApprovals | lib/changerequest.go:510-533 | one pass over the approvals counts all of them, each of the four states and whether one is final |
| ChangeRequest.TallyMeaning | lib/changerequest.go:510-533 | the tally counts every approval once, the approved, no-valid-approver and inactive-set ones plus the unsettled ones make up the whole list, declined ones are among the unsettled, and the final flag and the approved and declined counts say whether such an approval exists |
| ChangeRequest.TallyCounts | lib/changerequest.go:510-533 | the counts part of the tally's meaning |
| ChangeRequest.TallyFlags | lib/changerequest.go:510-533 | the existence part of the tally's meaning |
| ChangeRequest.UnsettledZero | lib/changerequest.go:333-339 | no approval is unsettled exactly when every approval is approved, without valid approvers or of an inactive set |
| ChangeRequest.ReadyForFinalApproval | lib/changerequest.go:502-544 | true exactly when the approvals number the approved, no-valid-approver and inactive-set ones plus one, and some approval is final |
| ChangeRequest.ReadyForFinalApprovalIff | lib/changerequest.go:502-544 | ready means exactly one approval is unsettled and some approval is final (the unsettled one need not be the final one); an empty list is never ready |
| ChangeRequest.PendingOutcomeMeaning | lib/changerequest.go:313-339 | for a pending request, a declined approval declines it; it is approved exactly when some approval is approved and all are settled; declined exactly when one is declined; otherwise it stays pending |
| ChangeRequest.FirstMissingSet | lib/changerequest.go:206-222 | the first required approver set that no approval belongs to, or none exactly when every required set has an approval |
| ChangeRequest.FinalCandidates | lib/changerequest.go:233-263 | the approvals of approver set 1, never more than there are approvals |
| ChangeRequest.FinalCandidatesMembers | lib/changerequest.go:233-263 | an ID is marked final exactly when it is the ID of an approval of approver set 1 |
| ChangeRequest.FindMissingSet | lib/changerequest.go:206-222 | the nested loop finds the first required set without an approval |
| ChangeRequest.CollectFinalCandidates | lib/changerequest.go:233-263 | the approvals of set 1 are found in order |
| ChangeRequest.ChangeRequest.constructor | lib/changerequest.go:130-154 | a change request carries the given fields |
| ChangeRequest.ChangeRequest.IsEditable | lib/changerequest.go:558-560 | a change request is never editable |
| ChangeRequest.ChangeRequest.UpdateState | lib/changerequest.go:181-373 | new or pending without a pending revision: cancelled; new with a required set lacking an approval: that error and no change; new otherwise: pending approval with the approvals of set 1 marked final; pending: the outcome of its tally, a change recorded when declined, approved or ready for the final approval; any other state: the "not implemented" error; a recorded change clears the loaded approvals |
| ChangeRequest.ChangeRequest.GetExportVersion | lib/changerequest.go:130-154 | the export copies the request's fields, gives -1 for a missing initial revision and exports the approvals in order |
| ChangeRequest.DeclinedAndApprovedExclusive | lib/changerequest.go:313-339 | a request is never both declined and fully settled, so the two pending outcomes never both apply |
| Approval.IsEditable | lib/approval.go:778-782 | an approval is editable exactly when its state is none of cancelled, approved, declined and the two skipped states |
| Approval.CheckSignature | lib/approval.go:204-222 | the signature is valid exactly when the attestation verified; no error exactly when it verified and carries approve or decline, which is then the action; otherwise the action is "none", with the verification error or "unknown approval action" |
| Approval.Validity | lib/approval.go:678-718 | the validity check always answers one of pendingapproval, inactive approver set, no valid approvers or new |
| Approval.ValidityNewOnlyForFinal | lib/approval.go:690-718 | the bootstrap request (initial revision 1 of approver or approver set 1) is always pending; a non-final approval of an active set with an active approver is pending; an approval waits in new only when it is the final one and the request is not ready for it |
| Approval.CheckValidityOfApproverSet | lib/approval.go:678-718 | the set's lookup error, then the request's lookup error, is returned as is; otherwise the decision of Approval.Validity, found by the loop over the set's approvers |
| Approval.TerminalStatesStay | lib/approval.go:643-644 | an approval that is not editable is left exactly as it is, with no change, no cascade and no error |
| Approval.DecisionNeedsSignature | lib/approval.go:553-604 | an approval becomes approved (declined) only from pendingapproval, with a signature, on a request that is not cancelled, by a verified attestation of that action for a request object that verifies |
| Approval.ApprovalObject.constructor | lib/approval.go:498-500 | an approval object carries the given state and signature |
| Approval.ApprovalObject.UpdateState | lib/approval.go:498-647 | the new state, signature, change flag, cascade flag and errors are those of the state machine: new moves with the request (cancelled, or the validity check once the request is pending), pendingapproval is cancelled, decided by its signature or moved by the validity check, the two skipped-to-be states follow the validity check without cascading, terminal states stay, other states report "don't know how to process state" |
| Approval.ApprovalObject.ApplyValidity | lib/approval.go:529-550 | a validity error is reported with no change; a different state is taken with a change; the same state makes no change |
| Approval.OtherSignatures | lib/approval.go:935-941 | never more signatures than approvals |
| Approval.OtherSignaturesCount | lib/approval.go:935-941 | one signature for every approval whose ID differs from this approval's |
| Approval.OtherSignaturesMembers | lib/approval.go:935-941 | a signature is listed exactly when some other approval carries it |
| Approval.GetDownloadAttestation | lib/approval.go:910-944 | a method other than approve and decline is refused as "invalid approval method"; a failed lookup of the request is returned; otherwise the attestation of this approval, with the other approvals' signatures exactly when it is the final approval |
| Approval.GetDownload | lib/approval.go:879-905 | "" for an invalid method or an approval without a positive ID; otherwise the JSON of the attestation |
| ApproverSet.ScanTokenFacts | lib/approverset.go:1030-1048 | one token: an unparsable one only extends the unparsable listing, a seen ID changes nothing, a new ID is entered with the result of its lookup and a failed lookup extends the invalid listing |
| ApproverSet.AllParseSnoc | lib/approverset.go:1029-1036 | every token parses exactly when the earlier ones do and the last one does |
| ApproverSet.ScanFacts | lib/approverset.go:1029-1049 | after the token loop the map holds the starting IDs plus every parsed ID, each new one with its lookup's result; each listing stays empty exactly when its kind of failure did not occur |
| ApproverSet.ScanOutcome | lib/approverset.go:1014-1064 | the parse has no error exactly when every token parses, the default set loads when required and every other requested ID loads; then the map holds exactly the requested IDs, each with the set its lookup found |
| ApproverSet.InsertByIDMembers | lib/approverset.go:1077 | inserting a set into a sorted list adds exactly that set |
| ApproverSet.InsertByIDSorted | lib/approverset.go:1077 | inserting a set with a new ID keeps the list in strictly ascending ID order |
| ApproverSet.SortByID | lib/approverset.go:1001-1003 | the sorted list is a permutation of the sets, in strictly ascending ID order |
| ApproverSet.NewIDNotSorted | lib/approverset.go:1071-1077 | a set whose ID is unique in the input has an ID absent from the sets sorted before it |
| ApproverSet.ScanWords | lib/approverset.go:1030-1048 | the inner loop computes the token scan over the words of one form value |
| ApproverSet.ScanAppend | lib/approverset.go:1029-1049 | scanning two runs of tokens one after the other is scanning them joined |
| ApproverSet.ScanOne | lib/approverset.go:1031-1048 | one pass of the loop body is the token step |
| ApproverSet.ScanForm | lib/approverset.go:1014-1049 | the default-set lookup and the nested loops over the form values compute the token scan of the form's words |
| ApproverSet.DistinctSnoc | lib/approverset.go:1071-1075 | appending a set with a new ID keeps the IDs distinct |
| ApproverSet.CollectLoaded | lib/approverset.go:1071-1075 | the collected sets are exactly the loaded (non-nil) entries of the map, with distinct IDs |
| ApproverSet.ParseApproverSets | lib/approverset.go:1014-1080 | the error is "ParseApproverSets failed for <id>:" followed by the unparsable and the failed listings, and occurs exactly when some token does not parse or some requested set does not load, with no sets returned; otherwise the sets of exactly the requested IDs, in ascending ID order |
| ApproverSet.AscendingHasNoDuplicates | lib/approverset.go:1077 | the sets returned never repeat an ID |
| ApproverSet.ParsedIncludesDefault | lib/approverset.go:1019-1027 | when approver set 1 is required and loads, a successful parse returns it |
| ApproverSet.UnparsableTokenFails | lib/approverset.go:1033-1037 | a token that does not parse is listed after a space and makes the parse fail |
| ApproverSet.GetApproverSetExportArr | lib/approverset.go:1107-1119 | one short export per set, in order, each carrying the set's ID, state, creation time and creator |
| ApproverSet.SetIDs | lib/approverset.go:1125-1162 | the IDs of the sets, position by position |
| ApproverSet.ExportIDs | lib/approverset.go:1125-1162 | the IDs of the exports, position by position |
| ApproverSet.ExportKeepsIDs | lib/approverset.go:1107-1162 | a list of sets compares equal to its own export |
| ApproverSet.CompareToApproverSetListToExportShort | lib/approverset.go:1125-1162 | true exactly when the two lists have the same length and every ID of each is in the other |
| ApproverSet.CompareToApproverSetExportShortLists | lib/approverset.go:1168-1205 | the same test on two lists of exports |
| ApproverSet.NoPendingFallsBack | lib/approverset.go:481-500 | a pending set without a pending revision on a change request goes back to bootstrap from pending bootstrap, else to its current revision's desired state, else to new, and saves and cascades that |
| ApproverSet.StateChangesOnlyOnFallback | lib/approverset.go:363-505 | only that fallback changes the set itself and reports a change; an approved request stores active or inactive only; a set in new, active, inactive or any other state is left alone |
| ApproverSet.ApproverSetObject.constructor | lib/approverset.go:350-361 | an approver set object with the given state and current revision, nothing saved yet |
| ApproverSet.ApproverSetObject.UpdateState | lib/approverset.go:350-505 | the new state, the stored copy's state and the flags are those of the decision: an approved request stores the pending revision's desired state (active or inactive, otherwise "pending revision is in an invalid state"), a declined one restores the current revision's state (active for bootstrap, new without one), and a missing pending revision falls back |
| ApproverSetRevision.RevisionExport.constructor | lib/approversetrevision.go:96-106 | a fresh export has its ID, no verified approvers and no keys |
| ApproverSetRevision.RevisionExport.AddVerifiedApprover | lib/approversetrevision.go:96-100 | the approver is appended and HasVerifiedApprovers then holds even when its key fails to parse; the key, with a newline added, is kept exactly when it decodes, and the decoding error is returned otherwise |
| ApproverSetRevision.RevisionExport.AddKey | lib/approversetrevision.go:109-127 | a key that decodes is appended; an armor failure is "error decoding block", an entity failure "error reading entity", and the approvers are untouched |
| ApproverSetRevision.GetActions | lib/approversetrevision.go:816-846 | a new revision offers starting approval, cancelling, updating the state and a view link (the parent set when viewed from itself); a pending revision offers its change request, cancelling, updating and a view link; four entries in both, none in any other state |
| ApproverSetRevision.MenuFollowsState | lib/approversetrevision.go:704-712 | approval can be started exactly while the revision is editable (new), the change request is offered exactly while pending, and a cancelled revision offers nothing |
| ApproverSetRevision.ToJSON | lib/approversetrevision.go:363-371 | refused with "invalid revision ID" exactly when the ID is not positive; otherwise the marshalled export |
| ApproverSetRevision.GetDiff | lib/approversetrevision.go:375-377 | always the error "unable to diff a single revision" |
| ApproverRevision.Compare | lib/approverrevision.go:94-185 | the export matches a revision exactly when all seventeen field checks pass (the approver set lists by ID), and the errors are the messages of the failing checks, in order |
| ApproverRevision.CompareExport | lib/approverrevision.go:190-281 | the same seventeen checks between two exports, with the same outcome and messages |
| ApproverRevision.GetExportVersion | lib/approverrevision.go:350-381 | the export copies every field, exports both approver set lists set by set, and gives -1 for a missing change request |
| ApproverRevision.ExportPassesCompare | lib/approverrevision.go:94-185 | a revision compares equal to its own export, with no error |
| ApproverRevision.CompareExportIsEquivalence | lib/approverrevision.go:190-281 | an export compares equal to itself, and comparing two exports passes one way exactly when it passes the other way |
| ApproverRevision.NameMismatchReported | lib/approverrevision.go:109-112 | a differing name is always reported by the Name message |
| ApproverRevision.GetActions | lib/approverrevision.go:882-914 | the shared revision menu with the approver as parent, of the size that menu has |
| ApproverRevision.ActionsFollowEditability | lib/approverrevision.go:863-876 | approval can be started exactly while the revision is editable (new), and a cancelled revision is never offered for cancellation |
| ApproverRevision.ToJSON | lib/approverrevision.go:286-294 | refused with "invalid revision ID" exactly when the ID is not positive, and otherwise the JSON of the export |
| APIUserRevision.Compare | lib/apiuserrevision.go:86-164 | the export matches a revision exactly when all fourteen field checks pass (the approver set lists by ID), and the errors are the messages of the failing checks, in order |
| APIUserRevision.CompareExport | lib/apiuserrevision.go:169-247 | the same fourteen checks between two exports, with the same outcome and messages |
| APIUserRevision.GetExportVersion | lib/apiuserrevision.go:316-344 | the export copies every field, exports both approver set lists set by set, and gives -1 for a missing change request |
| APIUserRevision.ExportPassesCompare | lib/apiuserrevision.go:86-164 | a revision compares equal to its own export, with no error |
| APIUserRevision.CompareExportIsEquivalence | lib/apiuserrevision.go:169-247 | an export compares equal to itself, and comparing two exports passes one way exactly when it passes the other way |
| APIUserRevision.DescriptionMismatchLabel | lib/apiuserrevision.go:109-112 | a differing description is reported under the EmailAddress message, as the source labels it |
| APIUserRevision.GetActions | lib/apiuserrevision.go:875-907 | the shared revision menu with the API user as parent, of the size that menu has |
| APIUserRevision.ActionsFollowEditability | lib/apiuserrevision.go:856-869 | approval can be started exactly while the revision is editable (new), and a cancelled revision is never offered for cancellation |
| APIUserRevision.ToJSON | lib/apiuserrevision.go:252-260 | refused with "invalid revision ID" exactly when the ID is not positive, and otherwise the JSON of the export |
| Approver.SuggestedRevisionValue | lib/approver.go:241-266 | "" for an approver without a current revision or a field it does not know; otherwise the current revision's value of the field |
| Approver.SuggestedEmployeeIDParses | lib/approver.go:248-249 | the suggested employee ID, formatted in decimal, reads back as the stored number |
| Approver.SuggestedRevisionBool | lib/approver.go:273-287 | only the active, inactive and admin flags of a current revision can be true; the two state flags say whether the desired state is active, respectively inactive |
| Approver.GetCurrentValue | lib/approver.go:295-301 | the not-prepared error for an unprepared approver, the suggested value otherwise |
| Approver.DisplayNameShape | lib/approver.go:305-307 | "<id> - <email> (<role>)" from the current revision; empty parts without one; the not-prepared error in both places when unprepared |
| Approver.ParseSnoc | lib/approver.go:877-893 | one more token adds its approver when it parses and loads, and is listed as bad otherwise |
| Approver.ParseFoldAppend | lib/approver.go:877-895 | running the loop over two runs of tokens in turn is running it over them joined |
| Approver.ParseFoldMeaning | lib/approver.go:869-895 | from the empty start the loops end with the approvers found, the listing of the bad tokens, and the failure flag set exactly when some token is bad |
| Approver.ParseOne | lib/approver.go:879-893 | one pass of the inner loop body is the token step |
| Approver.ParseWords | lib/approver.go:878-894 | the inner loop folds the token step over the words of one value |
| Approver.ParseApprovers | lib/approver.go:869-904 | the approvers named by the tokens that parse and load, in order and with repeats, and the error "an err occurred parsing the following approvers in the <id> form field:" listing the bad tokens exactly when there are any |
| Approver.ParseAccounting | lib/approver.go:877-895 | every token is either found or listed as bad, and none is bad exactly when every token loads |
| Approver.FoundMembers | lib/approver.go:877-895 | an approver is returned exactly when some token names it |
| Approver.RepeatsAndFailuresKept | lib/approver.go:877-895 | a repeated ID returns the approver twice, and a bad token does not stop the good ones being returned |
| Approver.ApproverIDs | lib/approver.go:910-947 | the IDs of the approvers, position by position |
| Approver.ExportShortIDs | lib/approver.go:910-947 | the IDs of the short exports, position by position |
| Approver.CompareToApproverListExportShortList | lib/approver.go:910-947 | true exactly when the two lists have the same length and every ID of each is in the other |
| Approver.CompareToApproverExportShortLists | lib/approver.go:953-990 | the same test on two lists of short exports |
| Approver.ListMatchesReorderedExport | lib/approver.go:910-947 | a list of approvers compares equal to the short exports of any reordering of it |
| APIUser.GetCertName | lib/apiuser.go:734-742 | the certificate name starts "apiuser<id>-" and ends with the current revision's ID, or with "nocurrentrevision" when there is none |
| APIUser.CertNameIdentifies | lib/apiuser.go:734-742 | two users with IDs that are not negative share a certificate name only when they have the same ID and the same current revision, or both have none |
| APIUser.DigitsBeforeDash | lib/apiuser.go:741 | a name of the form "apiuser<digits>-<rest>" splits at its first dash in one way only |
| APIUser.DashAfterDigits | lib/apiuser.go:741 | the first dash of such a name is the one after the digits |
| APIUser.VersionIsNotAbsent | lib/apiuser.go:735-739 | no revision number is ever written as "nocurrentrevision" |
| APIUser.SuggestedRevisionValue | lib/apiuser.go:257-274 | "" without a current revision or for a field it does not know; otherwise the current revision's name or certificate |
| APIUser.SuggestedRevisionBool | lib/apiuser.go:281-298 | false without a current revision and for unknown fields; the active and inactive flags follow the desired state, the admin and EPP client flags the revision's own |
| APIUser.DesiredStateFlagsExclusive | lib/apiuser.go:284-287 | the active and inactive flags are never both suggested |
| APIUser.GetCurrentValue | lib/apiuser.go:305-311 | the not-prepared error for an unprepared user, the suggested value otherwise |
| APIUser.DisplayNameShape | lib/apiuser.go:315-317 | "<id> - <current name>"; "<id> - " without a current revision; "<id> - Error: APIUser Not Prepared" when unprepared |
| APIUser.ToJSON | lib/apiuser.go:87-95 | refused with "ID not set" exactly when the ID is not positive, and otherwise the JSON of the export |
| Contact.GetRegistryID | lib/contact.go:187-197 | a recorded registry ID is returned unchanged; otherwise "GOREG-<id>" at iteration 0 and "GOREG-<id>-<iteration>" after that |
| Contact.RegistryIDCandidatesDistinct | lib/contact.go:187-197 | a contact without a registry ID gets a different candidate on every iteration |
| Contact.ExtensionText | lib/contact.go:391-395 | "x <ext>" for an extension, and "" exactly when there is none |
| Contact.GetRegistryExtension | lib/contact.go:381-396 | the registry's fax or voice extension as extension text, and "" for any other field |
| Contact.SuggestedRevisionValue | lib/contact.go:467-506 | "" without a current revision or for a field it does not know; otherwise the current revision's value, the multi-line address for the full address |
| Contact.GetCurrentValue | lib/contact.go:424-430 | the not-prepared error for an unprepared contact, the suggested value otherwise |
| Contact.GetCurrentExtension | lib/contact.go:401-413 | the not-prepared error for an unprepared contact, otherwise the current revision's extension as extension text |
| Contact.CurrentExtensionMatchesRegistry | lib/contact.go:381-413 | once the current revision carries the registry's extensions both show the same text; without a current revision nothing is shown |
| Contact.RegistryIDUpdate | lib/contact.go:837-852 | a recorded ID is never overwritten ("unable to set registry ID that has already been set"); a decoding failure is reported; otherwise the upper-cased string becomes the ID |
| Contact.RegistryIDSetOnce | lib/contact.go:837-840 | once set to something non-empty, the registry ID can never be set again |
| Contact.ContactObject.constructor | lib/contact.go:837 | a contact object with the given registry ID |
| Contact.ContactObject.SetRegistryID | lib/contact.go:837-852 | on a refusal the ID is unchanged and the refusal returned; otherwise the ID is the upper-cased value and the outcome of saving is returned |
| EppBase.ContactTypeFromString | epp/create.go:159-172 | a contact type exactly when the string, lower-cased, is tech, admin or billing, and then the type of that name; ErrUnknownContactType otherwise |
| EppBase.ContactTypeCaseInsensitive | epp/create.go:159-172 | each contact type is recognised from its name in lower and in upper case |
| EppBase.ToLowerOfUpper | epp/create.go:160 | lower-casing an upper-cased string without capitals gives it back |
| EppBase.ContactTypeIgnoresCase | epp/create.go:159-172 | strings that differ only in ASCII case are classified alike |
| EppBase.PostalInfoOf | epp/response.go:166-177 | the typed postal info copies the type, name, organisation and every address field of the received one |
| EppBase.PostalInfosOf | epp/response.go:166-177 | one typed postal info per received one, in order |
| EppBase.DomainHostsOf | epp/response.go:83-85 | one name server object per host name, in order |
| EppBase.HostAddressesOf | epp/response.go:125-127 | one typed address per received address, with its version and address, in order |
| EppBase.KnownContactsAppend | epp/response.go:91-98 | the contacts kept from two runs are those kept from each, in order |
| EppBase.KnownContactsSound | epp/response.go:91-98 | every kept contact comes from a received contact of a recognised type with the same value; a list of recognised types is kept whole and one of unrecognised types is dropped entirely |
| EppBase.GetNameStoreExtension | epp/extension.go:69-85 | the default namestore namespaces and schema location with the one product |
| EppBase.SuffixExtension | epp/create.go:118-126 | a namestore extension exactly for names ending ".COM" or ".NET", with the matching product |
| EppResponse.AuthOf | epp/response.go:75-78 | no password object exactly for the empty password, and otherwise one holding it |
| EppResponse.ToDomainInfDataResp | epp/response.go:61-103 | fails with "not domain response" exactly without a domain namespace; otherwise the domain data copied from the generic data, contacts of unknown type dropped |
| EppResponse.ToHostInfDataResp | epp/response.go:108-132 | fails with "not host response" exactly without a host namespace; otherwise the host data with statuses and addresses in order |
| EppResponse.ToContactInfDataResp | epp/response.go:137-185 | fails with "not contact response" exactly without a contact namespace; otherwise the contact data with statuses and postal infos in order |
| EppResponse.DomainInfKeepsOrder | epp/response.go:81-98 | the typed domain data keeps the name servers in order, no more contacts than received, each from a received contact of a recognised type, and all of them when every type is recognised |
| EppResponse.GetObjectType | epp/response.go:331-345 | "domain" whenever there is a domain namespace, else "host" for a host namespace, else "contact" for a contact namespace, else "" |
| EppResponse.DomainSlots | epp/response.go:697-774 | no domain slot is listed exactly when no domain typed data is set |
| EppResponse.HostSlots | epp/response.go:697-774 | no host slot is listed exactly when no host typed data is set |
| EppResponse.ContactSlots | epp/response.go:697-774 | no contact slot is listed exactly when no contact typed data is set |
| EppResponse.ResultDataMessageType | epp/response.go:697-774 | the specific message type of the one typed slot when exactly one is set, and "epp.response" otherwise |
| EppResponse.CheckDomainsOf | epp/response.go:513-561 | one domain check item per generic item, with its name and reason, in order |
| EppResponse.CheckNamesOf | epp/response.go:513-561 | the names of the generic items, in order |
| EppResponse.CheckIdsOf | epp/response.go:513-561 | the IDs of the generic items, in order |
| EppResponse.TypedMessage | epp/response.go:484-646 | the typed result data: one typed slot for each generic slot and each non-empty namespace in it, and nothing generic |
| EppResponse.TypedInfos | epp/response.go:487-511 | the info part: a typed info for each non-empty namespace of the generic info |
| EppResponse.TypedChecks | epp/response.go:513-561 | the check part: the fixed namespaces and the items in order for each non-empty namespace |
| EppResponse.TypedInfoMessageType | epp/response.go:484-774 | after conversion, an info response with one namespace is an info message of that type, and one with both domain and host namespaces is the plain response type |
| EppResponse.TypedResultDataIsTyped | epp/response.go:484-646 | conversion leaves no generic slot, so converting twice leaves nothing |
| EppResponse.ResponseMessageType | epp/response.go:415-421 | "epp.response" without result data, otherwise the result data's type |
| EppResponse.IsFatalError | epp/response.go:1251-1253 | true exactly for result codes 2500 to 2599 |
| EppResponse.IsError | epp/response.go:1256-1258 | true exactly for result codes 2000 to 2999 |
| EppResponse.GetError | epp/response.go:1262-1268 | an error exactly when the response is an error, carrying the result message |
| EppResponse.FatalIsError | epp/response.go:1251-1268 | every fatal response is an error response with an error |
| EppResponse.DefinedErrorCodes | epp/response.go:1272-1546 | among the defined result codes the errors are exactly those from 2000 up |
| EppResponse.DefinedFatalCodes | epp/response.go:1272-1546 | among the defined result codes the fatal ones are exactly 2500, 2501 and 2502 |
| EppCreate.GetEPPDomainCreate | epp/create.go:75-131 | a domain create for the upper-cased name with the transaction ID and period; hosts absent exactly when none are given; admin, tech and billing contacts each present exactly when its ID is; no password exactly when it is empty; the namestore extension of the name's suffix |
| EppCreate.DomainCreateContacts | epp/create.go:100-110 | the built contacts come in admin, tech, billing order, at most three, and a contact of a type is present exactly when its ID was given |
| EppCreate.TaggedAddresses | epp/create.go:267-275 | one address per IP, tagged with the version, in order |
| EppCreate.GetEPPHostCreate | epp/create.go:259-290 | a host create for the upper-cased name with the IPv4 addresses first and then the IPv6 ones, in order; classified as a host create; the extension of the name's suffix |
| EppCreate.GetEPPContactCreate | epp/create.go:308-333 | a contact create with the one postal info, ID, email, voice and fax given, no extension, and no password exactly when it is empty |
| EppCreate.NonEmptyIsSubsequence | epp/create.go:369-379 | dropping empty streets keeps exactly the non-empty ones and drops nothing when none is empty |
| EppCreate.GetEPPPostalInfo | epp/create.go:360-387 | the streets are the non-empty ones of the three in order; type, name, organisation, city, state, postal code and country are copied |
| EppCreate.PostalInfoStreets | epp/create.go:360-387 | a built postal info has at most three streets, none empty, and all three when all are given |
| EppCreate.MessageType | epp/create.go:422-439 | the contact, domain or host create type exactly when that is the only typed object present, and the plain create type otherwise |
| EppCreate.TypedMessage | epp/create.go:443-532 | the typed create of the generic one: a contact, domain and host object for each non-empty namespace, with postal infos, hosts, recognised contacts and addresses copied in order |
| EppCreate.TypedCreateMessageType | epp/create.go:422-532 | a generic create with exactly one namespace becomes a create of that kind, and one with none stays the plain create type |
| EppCreate.TypedDomainCreateContacts | epp/create.go:477-507 | the typed domain create has hosts exactly when the generic one does, all of them in order, and only contacts of a recognised type, each from a received contact |
| EppUpdate.GetEPPDomainUpdateChange | epp/update.go:95-108 | the registrant is the given one or empty, and the password block is present exactly when a password is given, holding it |
| EppUpdate.GetEPPDomainUpdateAddRemove | epp/update.go:120-140 | no host list exactly when no host is given, and otherwise one name server per host in order; contacts as given; statuses in order |
| EppUpdate.GetEPPDomainUpdate | epp/update.go:149-186 | a domain update for the upper-cased name with the transaction ID; each absent part left empty; a namestore extension exactly for names ending ".COM" or ".NET" |
| EppUpdate.GetEPPHostUpdateChange | epp/update.go:211-213 | the new host name, upper-cased, with no lower-case letter left |
| EppUpdate.GetEPPHostUpdateAddRemove | epp/update.go:230-240 | addresses as given and statuses in order |
| EppUpdate.GetEPPHostUpdate | epp/update.go:243-279 | a host update for the upper-cased name; absent add and remove parts left empty; an absent change stays absent; a namestore extension exactly for names ending ".COM" or ".NET" |
| EppUpdate.GetEPPContactUpdate | epp/update.go:295-311 | a contact update with the ID and the three parts as given, and no extension |
| EppUpdate.GetEPPContactUpdateAddRemove | epp/update.go:321-330 | the statuses in order |
| EppUpdate.GetEPPContactUpdateChange | epp/update.go:345-359 | postal info, phones and email as given; a password block exactly for a non-empty password, holding it |
| EppUpdate.MessageType | epp/update.go:383-397 | the contact, domain or host update type exactly when that is the only typed object present, and the plain update type otherwise |
| EppUpdate.BuiltUpdatesClassified | epp/update.go:149-397 | the domain, host and contact updates the builders make are classified as updates of that object type |
| EppUpdate.CopyStatuses | epp/update.go:409-411 | the statuses of a part, copied in order |
| EppUpdate.TypedDomainAddRemove | epp/update.go:449-463 | the corrected domain add part: every host in order, recognised contacts in order, statuses in order |
| EppUpdate.TypedDomainAddRemoveAsWritten | epp/update.go:449-463 | the domain add part as written: the host list holds only the last host |
| EppUpdate.TypedContacts | epp/update.go:458-463 | the contacts of a recognised type, in order, each with its value |
| EppUpdate.TypedHostAddRemove | epp/update.go:497-511 | addresses and statuses of a host part, in order |
| EppUpdate.TypedMessageWith | epp/update.go:401-521 | the typed update of the generic one, one object per non-empty namespace, with the chosen handling of domain hosts |
| EppUpdate.TypedMessageAsWritten | epp/update.go:401-521 | Update.TypedMessage as written: domain add and remove parts keep only the last host |
| EppUpdate.TypedMessage | epp/update.go:401-521 | Update.TypedMessage keeping every host of the domain add and remove lists |
| EppUpdate.TypedUpdateAsWrittenDropsHosts | epp/update.go:453-456 | as written, an update adding hosts a and b keeps only b, so a is lost whenever the two differ |
| EppUpdate.TypedUpdateKeepsHosts | epp/update.go:453-472 | the corrected conversion keeps every host of both lists in order, and agrees with the source whenever each list has at most one host |
| EppUpdate.TypedUpdateMessageType | epp/update.go:383-521 | a generic update with exactly one namespace becomes an update of that object type |
| EppServer.FirstMatch | epp/server/server.go:67-97 | the loop shared by the three lookups: a stored value whose key field is the wanted one, and the not-found error exactly when none has it |
| EppServer.ContactByID | epp/server/server.go:67-75 | a stored contact with that registry ID, and "no contact found" exactly when there is none |
| EppServer.HostByName | epp/server/server.go:78-86 | a stored host with that name, and "no host found" exactly when there is none |
| EppServer.DomainByName | epp/server/server.go:89-97 | a stored domain with that name, and "no domain found" exactly when there is none |
| EppServer.ServerTXIDInjective | epp/server/server.go:268-273 | within a connection, different counter values give different server transaction IDs |
| EppServer.ServerTXIDSeparatesConnections | epp/server/server.go:268-273 | two connections with different non-negative IDs never produce the same server transaction ID |
| EppServer.DashAfterNumber | epp/server/server.go:269 | in "SRV-<n>-<t>" the first dash after the prefix is the one right after the connection number |
| EppServer.VerdictCodesStandard | epp/server/server.go:277-344 | each login answer has an RFC 5730 result code with its standard message; only an accepted login succeeds, and only the 2501 and 2002 answers close the session |
| EppServer.MatchingPasswordAccepted | epp/server/server.go:284-296 | a login is accepted exactly when its password is the stored one, whatever the failure count; an unknown login ID takes the empty password; acceptance answers 1000 and moves to waiting for commands |
| EppServer.NonLoginCloses | epp/server/server.go:322-333 | any other command before login is answered 2002 and closes the session |
| EppServer.WrongPasswordsThenClose | epp/server/server.go:118 | with wrong passwords, the answers from a failure count up to the maximum are 2200 each and then one 2501, so with the maximum of 2 a client gets two 2200s and then a closing 2501 |
| EppServer.CheckedMeaning | epp/server/server.go:361-424 | the check answers are one per asked ID in order, available (1) exactly when no stored object of the asked kind matches it and taken (0) exactly when one does |
| EppServer.CheckOne | epp/server/server.go:366-378 | the answer for one ID from the lookup of the asked kind: 0 when it is found, 1 otherwise |
| EppServer.CheckAll | epp/server/server.go:355-427 | the answers for every ID of every check element, in order, each by whether a stored object matches it |
| EppServer.Connection.constructor | epp/server/server.go:190-198 | a new connection for the server with the given ID, counter 1, no failed logins, not logged in, nothing written |
| EppServer.Connection.GetNextTransactionID | epp/server/server.go:268-273 | "SRV-<connection ID>-<counter>" for the current counter, which then goes up by exactly one |
| EppServer.Connection.WriteEPP | epp/server/server.go:1117-1122 | the socket's error is returned, and the reply is recorded as written exactly when there is none |
| EppServer.Connection.HandleWaitingForClient | epp/server/server.go:277-344 | on timeout the connection is closed with "client timeout" and nothing else changes; otherwise one server transaction ID is used, the answer for the login policy is written with its code and message, and when the write succeeds the state, failure count and logged-in login move as the answer says |
| EppServer.Connection.GenerateCheckResponse | epp/server/server.go:346-430 | a message without a transaction ID is refused with that error before the counter moves; otherwise one server transaction ID is used and a 1000 reply with every asked ID's availability is written |
| Client.RecordedWindows | client/client.go:373-412 | after a revision is recorded at a time, every window is still well formed, the revision is known, and each of its entries covers that time |
| Client.RecordedKeepsOthers | client/client.go:389-408 | recording keeps the object ID, changes no entry of another revision, only widens the entries of the revision, and adds one entry exactly when the revision was unknown |
| Client.RecordedIdempotent | client/client.go:373-412 | recording the same revision at the same time twice is the same as recording it once |
| Client.WindowForMeaning | client/client.go:313-321 | no revision is found exactly when no window covers the time; otherwise the revision of the first window that covers it |
| Client.RecordedIsFound | client/client.go:295-412 | once a revision is recorded at a time that no other revision's window covers, the lookup for that time finds it |
| Client.ObjectFileNameInjective | client/client.go:432-434 | the object file name gives back the object type and ID |
| Client.DotBeforeNumber | client/client.go:433 | in "<type>.<id>" the last dot is the one before the number |
| Client.CachePathsDistinct | client/client.go:432-440 | different objects get different object files, and no object file is a snapshot file |
| Client.DiskCache.constructor | client/client.go:55-81 | a cache for the given directory with no files |
| Client.DiskCache.UpdateRevisionList | client/client.go:373-412 | an object file that does not decode is reported and nothing is written; otherwise the recorded information of the stored or an empty one is written back, unless the write fails |
| Client.DiskCache.RevisionFor | client/client.go:295-322 | the revision of the first stored window that covers the time; the read error for a missing file, the decode error for a bad one, and "Unable to located a cached version of the object" when no window covers it |
| Client.BuildHintMap | client/client.go:1788-1794 | the hints keyed by object ID, a later hint replacing an earlier one |
| Client.HintMapKeys | client/client.go:1788-1794 | the map has a key for each object ID among the hints and no other |
| Client.HintMapLatest | client/client.go:1788-1794 | for each key the map holds the last hint with that object ID |
| Client.ContainsIsLastIndex | client/client.go:2547 | a string contains another exactly when the other has a last index in it |
| Client.IsBlockEncrypted | client/client.go:2545-2552 | true exactly when some header value of the block contains "ENCRYPTED" |
| API.KindOfMessageType | lib/api.go:396-431 | the export type whose message type this is, and none exactly when no export type has it |
| API.MessageTypesDistinct | lib/api.go:47-101 | every export type has its own message type, which leads back to it, and none of them is "error" |
| API.ErrsToStrings | lib/api.go:435-443 | the messages of the errors that are not nil, in order |
| API.StringsToErrs | lib/api.go:447-453 | one error per string, carrying it, in order |
| API.MessagesAppend | lib/api.go:435-443 | the messages of two runs of errors are the messages of each, in order |
| API.MessagesDropNil | lib/api.go:435-443 | never more messages than errors, and no message exactly when every error is nil |
| API.ErrorsRoundTrip | lib/api.go:435-453 | turning strings into errors and back gives the same strings |
| API.GenerateErrorResponse | lib/api.go:167-171 | an "error" response carrying the messages of the non-nil errors and no object or list |
| API.GenerateIDList | lib/api.go:263-285 | for a domain, host or contact the ID list type with the IDs and hints under that object type; for any other type an "error" response with "Unknown object type <type>" |
| API.IDListTypes | lib/api.go:263-285 | only domains, hosts and contacts have an ID list, each under its own message type |
| API.GenerateObjectResponse | lib/api.go:325-391 | for each export type a response of its message type holding exactly that object; any other value gives an "error" response with "unsupported object type <name>" |
| API.GetRegistrarObject | lib/api.go:396-431 | the field named by an object message type (nil when unset); for an "error" response its errors, whose messages are the response's strings; nothing for any other type |
| API.ObjectResponseRoundTrip | lib/api.go:325-431 | an object response gives back the object it was made from; an unsupported value comes back as the single error naming its type |
| API.ErrorResponseRoundTrip | lib/api.go:167-171 | an error response gives back its errors with the nil ones dropped |
| DBCache.KindsExhaustive | lib/dbcache.go:54-69 | a table with an entry for each of the fourteen cached types has one for every type |
| DBCache.EmptyTables | lib/dbcache.go:54-69 | the wiped cache has a map for each of the fourteen types, every one empty |
| DBCache.FindKeepsEntries | lib/dbcache.go:279-471 | a find keeps a map for every type; when Prepare's own lookups keep what is cached, the find lowers no counter and drops or changes no cached entry |
| DBCache.FindHit | lib/dbcache.go:280-392 | a cached object is handed back and only a hit is counted |
| DBCache.FindMissThenHit | lib/dbcache.go:397-471 | on a miss whose load and preparation succeed, Prepare runs on the cache with the miss already counted; the prepared object is handed back and stored in the cache Prepare leaves, and the next find of it is a hit on that object whatever the database says then |
| DBCache.FindMissFails | lib/dbcache.go:397-407 | a failed load changes nothing and returns its error; a failed preparation stores nothing itself, leaves the cache as Prepare left it with the miss counted, and returns "error preparing object: ..." |
| DBCache.FindUnsupported | lib/dbcache.go:393-394 | another type is refused with "unsupported Type" and changes neither counters nor maps |
| DBCache.PurgeRemovesOnly | lib/dbcache.go:238-273 | purge removes exactly the entry of that type and ID and keeps the counters and every other entry |
| DBCache.PurgeThenMiss | lib/dbcache.go:238-279 | after a purge the next find of that object takes the miss path |
| DBCache.PurgeUnsupported | lib/dbcache.go:268-269 | purging another type fails with "unsupported Type: ..." and changes nothing |
| DBCache.WipedFindMisses | lib/dbcache.go:54-69 | after a wipe every find of a cached type takes the miss path |
| DBCache.Cache.constructor | lib/dbcache.go:43-49 | a new cache has zero counters and the wiped maps |
| DBCache.Cache.WipeCache | lib/dbcache.go:54-69 | every map is emptied and the counters kept |
| DBCache.Cache.Save | lib/dbcache.go:129-185 | the cache is wiped before the write and the database's error is returned |
| DBCache.Cache.InvalidateObject | lib/dbcache.go:210-212 | the whole cache is wiped, whatever the object |
| DBCache.Cache.Update | lib/dbcache.go:190-199 | a failed column update returns its error with the cache kept; a successful one wipes the cache |
| DBCache.Cache.Purge | lib/dbcache.go:238-273 | the new state and error are those of the purge step: the entry of that type and ID dropped, another type refused |
| DBCache.Cache.Find | lib/dbcache.go:279-471 | the new state and result are those of the find step: hit, load, miss count, Prepare on the live cache, and storing, in the source's order |
| DBCache.Cache.FindByID | lib/dbcache.go:223-234 | a value that is not a registrar object is refused; a failed SetID is returned as "error setting object id: ..." with the cache unchanged; otherwise the ID is set and the find runs with it |
| Whois.IcannEPPStatusCodeLink | whois-generator/main.go:259-261 | the line starts with the status and a space and ends with "#" and the status, and is exactly as long as the status twice plus the ICANN link text |
| Whois.StatusLinkInjective | whois-generator/main.go:259-261 | different statuses give different lines |
| Whois.StatusCodeInjective | whois-generator/main.go:263-320 | the sixteen statuses have sixteen different codes |
| Whois.StatusLine | whois-generator/main.go:259-261 | the line of a status starts with its code and ends with the ICANN anchor for it |
| Whois.SelectedPositions | whois-generator/main.go:263-320 | the selected lines sit at strictly increasing positions of the table, exactly the positions whose flag is set |
| Whois.AppendIfSet | whois-generator/main.go:266-268 | the status line is appended exactly when its flag is set |
| Whois.GetDomainStatuses | whois-generator/main.go:263-320 | the line of each status whose flag is set, in the order client, server, pending, ok |
| Whois.SelectedSnoc | whois-generator/main.go:263-320 | adding an entry to the table adds its value to the selection exactly when its flag is set |
| Whois.StatusLinesSelected | whois-generator/main.go:263-320 | the selection of the status table, entry by entry, is the appends made one flag at a time |
| Whois.SelectedEnds | whois-generator/main.go:263-320 | nothing is selected exactly when no flag is set, and a set last flag puts its value last |
| Whois.DomainStatusesShape | whois-generator/main.go:263-320 | a domain shows no status lines exactly when no flag is set, and an ok domain shows the ok line last |
| Whois.Dictify | whois-generator/main.go:558-571 | "invalid dict call" for an odd number of arguments, "dict keys must be strings" when a key position holds something else, and otherwise the map of the pairs |
| Whois.DictKeys | whois-generator/main.go:558-571 | the dict has a key for each string in a key position and no other |
| Whois.DictLatest | whois-generator/main.go:558-571 | each key maps to the value after its last occurrence |
| Whois.ExpandPath | whois-generator/main.go:485-494 | "No Path Set" for the empty path; a path starting with "/" is kept with no error; any other is joined onto the working directory and carries its error |
| Whois.ExpandPathIdempotent | whois-generator/main.go:485-494 | a path expanded against an absolute working directory is absolute, and expanding it again changes nothing |
| Escrow.FileNames | escrow-generator/main.go:389-401 | the hash file is named "<path>/<IANA ID>_RDE_<date>_hash.<ext>" for both names; every other file gets "_<index>" after its type, and the gzip name is the raw name with ".gz" |
| Escrow.RawNameIsGzNameWithoutSuffix | escrow-generator/main.go:389-401 | the raw name is the gzip name without its ".gz", and the same name for the hash file |
| Escrow.ChunkNamesDistinct | escrow-generator/main.go:389-401 | two chunks of one deposit with different indexes never share a file name |
| Escrow.SplitName | escrow-generator/main.go:397 | the gzip name splits into the stem with "_", the index and the extension with ".gz" |
| Escrow.CancelEnds | escrow-generator/main.go:397 | names that agree around the index agree on the index |
| Escrow.CheckOrAddKeepsEntries | escrow-generator/main.go:287-291 | CheckOrAdd adds only the one ID, with no contact yet when it was absent, never changes an entry already there, and a second call changes nothing |
| Escrow.ContactQueue.constructor | escrow-generator/main.go:183 | the contact map starts empty |
| Escrow.ContactQueue.CheckOrAdd | escrow-generator/main.go:287-291 | the contact map becomes the checked-or-added map of the old one |
| Keyring.PickSelfSignature | lib/approverset.go:788-798 | no signature exactly when the entity has no identity; otherwise one of the identities' signatures, and a primary one whenever some identity is primary, whatever order the map is visited in |
| Keyring.FillsAllSnoc | lib/approverset.go:803-807 | a key filling its place can be added after keys that fill theirs |
| Keyring.FillsAllAppend | lib/approverset.go:786-808 | two runs of keys that fill their places together fill the joined places |
| Keyring.KeysById | lib/approverset.go:785-811 | the keys fill, one for one and in order, the matching primary keys and matching subkeys of the ring, entity by entity |
| Keyring.EntityKeys | lib/approverset.go:787-807 | one entity's keys: its primary key with the picked self-signature when it matches, then each matching subkey with its own signature |
| Keyring.SubkeySlotsMembers | lib/approverset.go:803-807 | a subkey of the entity is returned exactly when its key ID matches |
| Keyring.SlotsMembers | lib/approverset.go:785-811 | a primary key is returned exactly for the ring's entities whose primary key has the ID, and a subkey exactly for the matching subkeys of the ring's entities |
| Keyring.KeysByIdMatch | lib/approverset.go:785-811 | every key returned has the requested key ID |
| Keyring.FilterUsable | lib/approverset.go:817-854 | the kept keys are never more than the candidates |
| Keyring.KeysByIdUsage | lib/approverset.go:817-854 | exactly the keys of KeysById that pass the revocation and usage tests, in order |
| Keyring.NoSelfSignatureIsExcluded | lib/approverset.go:817-826 | an unrevoked key reaching the self-signature tests has a self-signature when every matching entity has an identity |
| Keyring.FilterUsableMembers | lib/approverset.go:817-854 | a key is kept exactly when it is a candidate and passes the tests |
| Keyring.UsageCovers | lib/approverset.go:827-848 | the usage test passes exactly when the requirement names only the four usage bits and the signature has each flag it names |
| Keyring.RevokedNeverUsable | lib/approverset.go:819-825 | a key of a revoked entity, or whose self-signature carries a revocation reason, is never kept, whatever the usage |

## Left out

- The SQL database through gorm is not modelled. Rows, insert and save outcomes, and lookups by ID are parameters of the operations that use them.
- HTTP handlers, HTML templates and the web server's routing are not modelled. Only the logic they call is.
- Sockets, TLS listeners, goroutines and the EPP server's accept and handle loop are not modelled, because they are I/O and concurrency. `EppServer.Connection` models one session's state.
- The client's HTTP calls to the registrar API are not modelled, because they are network I/O. The disk cache they fill is modelled.
- OpenPGP key parsing, signature checking and X.509 certificates are cryptography. Keys and certificates are plain records.
- JSON and XML encoding and decoding are serialisation libraries. Decoders are parameters where a result depends on them.
- gzip, SHA-256, CSV writing and file I/O in the whois, escrow and provisioning tools are not modelled. File contents are values and write errors are parameters.
- EppResponse.IsFatalError requires the response to carry a result, because the source dereferences `Response.Result` (epp/response.go:1251-1253) and panics on a reply without `<result>`.
- EppResponse.IsError requires a result for the same reason (epp/response.go:1256-1258).
- EppResponse.GetError requires a result for the same reason (epp/response.go:1262-1268).
- DBCache.FindStep and DBCache.Cache.Find: each object's Prepare is an abstract step on the cache (`DBCache.PrepareStep`). The model does not spell it out as the nested `FindByID` calls the object types make (for example lib/approver.go:602-604). It assumes only that Prepare keeps a map for every type. The claim that nothing cached is lost also assumes Prepare keeps what it finds in the cache.
- Sending email on workflow changes is an outside service and is left out.
- `time.Now` is a parameter. `Escrow.FileNames` takes one date, whereas the source reads the clock twice and could straddle midnight.
- `os.Getwd` is a parameter.
- `net.ParseIP`, `net.IP.Equal`, `net.ResolveIPAddr` and JavaScript's `Number()` are abstract function parameters. IP equality is the equality of the parsed forms.
- RegistrarObject.NewRegistrarObject: the error's `%q` quoting is modelled for ASCII: quotes, backslashes and control characters are escaped as strconv.Quote does. Non-ASCII characters that Go does not count as printable (U+0085, for instance) are written by Go as `\u` escapes, and are kept as they are here. Invalid UTF-8 cannot occur in the model's strings.
- Browser.IdRowPushRemoveReadd: the Remove and Undo links of hostname, approver-set and approver rows put the id into the script call without quotes (server/static/js/go-registrar.js:325,354,379,427,474,517,554,584,609). A click therefore passes the JavaScript number that the id text spells. The lemma calls remove and undo with the id text itself, so it describes the clicks only for ids that read back as themselves: canonical decimals below 2^53, which the server's database ids are. For "1e3" or "007" a click addresses another row, and for "12abc" it does nothing.
- Keyring.KeysByIdUsage requires that every unrevoked entity whose primary key matches has an identity (`Keyring.SelfSignedWhereMatched`). Without one, `KeysById` leaves the self-signature nil and the source dereferences it at lib/approverset.go:823 and panics. The OpenPGP reader that builds the keyring rejects entities without an identity, but key decoding is not part of this model, so the fact is taken as a requirement.
- `strings.ToUpper`, `strings.ToLower` and `strings.EqualFold` are modelled on ASCII letters only. Unicode case mapping is not available.
- Core.GetCaseInsensitiveHeader: header names are lower-cased on ASCII letters only (lib/core.go:707,711), so names that differ only in a non-ASCII letter Go folds together, such as 'İ' and 'i', do not match here.
- EppBase.ContactTypeFromString: the type name is lower-cased on ASCII letters only (epp/create.go:160), so "ADMİN", which Go's `strings.ToLower` turns into "admin", is an unknown type here.
- Go's int64 arithmetic is unbounded in the model. IDs and counters in the core never approach the limit.
- Client.CachePathsDistinct: it is stated for `Client.JoinPath`, which joins with one '/' and does not clean the result as Go's `path.Join` does (client/client.go:433,439,445). In Go, an object type holding '/' or ".." can give two cache files the same path: "x//y" and "x/y", or "../snapshots/x" and a snapshot of "x". The client passes only its constant type names, which hold neither.
- Client.ObjectPath, Client.SnapshotPath and Client.ChangeRequestPath: the same missing cleaning. The model's path is the joined text. Go's cleaned path is spelled differently when the base path ends in '/' or holds "." or ".." segments, but it names the same file.
- Whois.ExpandPath: `path.Join` in the source also cleans the result (removes "..", "." and doubled slashes); `Common.PathJoin` only joins with one '/', so the contract says less than the source does for paths needing cleaning.
- `toggle_content` and `update_domain_class` in the browser script are cosmetic display changes and are left out.
- `DecryptionKeys` in the keyring code always returns no keys, so there is nothing to model.
- ApproverSet.ApproverSetObject.UpdateState: the errors raised by change-request verification and by database access, and the cascade to dependent approvals, are not modelled. The state step itself is.
- Approval.ApprovalObject.UpdateState: `FindByID` and `Save` failures, the email sent, and the cascade to the change request are not modelled.
- EppResponse.ToContactInfDataResp: the disclose settings are carried over unconverted, as the source leaves them (epp/response.go:219).
- Client.DiskCache.UpdateRevisionList: the source treats any error reading the cache file as a missing file. The model's cache files are present or absent and never unreadable, so only the missing file takes that path.
- EppServer.Connection.HandleWaitingForClient: the error that closing the connection returns on a timeout is not modelled.
- EppCreate.TypedMessage and EppUpdate.TypedMessage require the generic object to be present, because the source dereferences it. The contact branch of the update also requires the postal info, voice and fax to be present (`EppUpdate.ContactChangeComplete`).
- Where the browser script looks a row up with jQuery's `"#" + id`, the model treats this as an exact id lookup. Ids with characters that CSS selectors treat specially are not modelled.

## Findings

| source | as written | input that shows it | evidently intended | confidence | as-written member | corrected member |
|---|---|---|---|---|---|---|
| server/static/js/go-registrar.js:186-214 | `push_ds_entry` calls `readd_ds_entry(id, key_tag, alg, digest_type, digest)` for a row already on the page, but `readd_ds_entry` takes the DS value before the key tag | push the DS entry 1:8:2:AB, remove it, push it again: the row's title and submitted value become "1" | the re-pushed row gets back "1:8:2:AB" as title and value, as undo does | not executed | Browser.Page.PushDSEntryAsWritten, Browser.DSRepushAsWrittenLosesEntry | Browser.Page.PushDSEntry, Browser.DSRepushRestores |
| epp/update.go:453-456 | the generic domain update recreates its Hosts list inside the loop over added (and, at 469-472, removed) hosts, so only the last host survives | a generic domain update that adds two different hosts a and b: the typed update adds only b | every added or removed host appears in the typed update | not executed | EppUpdate.TypedMessageAsWritten, EppUpdate.TypedUpdateAsWrittenDropsHosts | EppUpdate.TypedMessage, EppUpdate.TypedUpdateKeepsHosts |
