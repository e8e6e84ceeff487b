// Contact revisions: phone and address formatting, the escrow address line
// and the revision menu.

module ContactRevision {
  import opened Common
  import opened RegistrarObject

  /** The mailing address fields of a contact revision (and of its export). */
  datatype ContactAddress = ContactAddress(
    street1: string, street2: string, street3: string,
    city: string, state: string, postalCode: string, country: string)

  datatype ContactRevisionRecord = ContactRevisionRecord(
    id: int, contactID: int, revisionState: string, desiredState: string,
    name: string, org: string, emailAddress: string, address: ContactAddress,
    voicePhoneNumber: string, voicePhoneExtension: string,
    faxPhoneNumber: string, faxPhoneExtension: string, savedNotes: string)

  // ---------------------------------------------------------------------
  // Phone numbers

  /** formatNumberForDisplay: the number, followed by "x" and the extension
      when there is one. */
  function FormatNumberForDisplay(number: string, extension: string): (r: string)
    ensures HasPrefix(r, number)
    ensures extension == "" <==> |r| == |number|
  {
    if |extension| == 0 then number else number + "x" + extension
  }

  /** An extension free of 'x' can be read back: the last 'x' of the
      displayed text separates the number from the extension. */
  lemma NumberDisplaySplits(number: string, extension: string)
    requires extension != "" && NoChar(extension, 'x')
    ensures var r := FormatNumberForDisplay(number, extension);
      LastIndex(r, "x") == |number| && r[..|number|] == number && r[|number| + 1..] == extension
  {
    var r := FormatNumberForDisplay(number, extension);
    assert OccursAt(r, "x", |number|);
    forall j | |number| < j < |r|
      ensures !OccursAt(r, "x", j)
    {
      assert r[j] == extension[j - |number| - 1];
    }
    assert r[|number| + 1..] == extension;
  }

  // ---------------------------------------------------------------------
  // Address lines

  /** Whether the address has a city/state/postal-code line. */
  predicate HasLocality(a: ContactAddress)
  {
    |a.city| > 0 || |a.state| > 0 || |a.postalCode| > 0
  }

  /** The city/state/postal-code line, as both address formatters build it. */
  function LocalityLine(a: ContactAddress): string
  {
    var place := if |a.city| > 0 && |a.state| > 0 then a.city + ", " + a.state else a.city + a.state;
    if |a.city| > 0 || |a.state| > 0 then place + " " + a.postalCode else a.postalCode
  }

  /** The shape of the locality line: "City, State" when both are set and
      their concatenation otherwise, then a space and the postal code when
      either is set; the postal code alone otherwise. */
  lemma LocalityLineShape(a: ContactAddress)
    ensures |a.city| > 0 && |a.state| > 0 ==> LocalityLine(a) == a.city + ", " + a.state + " " + a.postalCode
    ensures (|a.city| == 0) != (|a.state| == 0) ==> LocalityLine(a) == a.city + a.state + " " + a.postalCode
    ensures |a.city| == 0 && |a.state| == 0 ==> LocalityLine(a) == a.postalCode
    ensures HasSuffix(LocalityLine(a), a.postalCode) && HasPrefix(LocalityLine(a), a.city)
    ensures HasLocality(a) <==> LocalityLine(a) != ""
  {
  }

  function Present(s: string): seq<string>
  {
    if |s| > 0 then [s] else []
  }

  /** The parts of an address in order: the non-empty streets, the locality
      line when any of its fields is set, and the country when set. */
  function AddressParts(a: ContactAddress): seq<string>
  {
    Present(a.street1) + Present(a.street2) + Present(a.street3)
      + LocalityPart(a) + Present(a.country)
  }

  function LocalityPart(a: ContactAddress): seq<string>
  {
    if HasLocality(a) then [LocalityLine(a)] else []
  }

  lemma AddressPartsNonEmpty(a: ContactAddress)
    ensures forall k :: 0 <= k < |AddressParts(a)| ==> AddressParts(a)[k] != ""
    ensures AddressParts(a) == [] <==> a == ContactAddress("", "", "", "", "", "", "")
  {
    LocalityLineShape(a);
  }

  /** Each part followed by the separator. */
  function Terminated(parts: seq<string>, sep: string): string
  {
    if parts == [] then "" else Terminated(parts[..|parts| - 1], sep) + parts[|parts| - 1] + sep
  }

  lemma TerminatedSnoc(parts: seq<string>, x: string, sep: string)
    ensures Terminated(parts + [x], sep) == Terminated(parts, sep) + x + sep
  {
    assert (parts + [x])[..|parts|] == parts;
  }

  lemma {:induction false} TerminatedConcat(p: seq<string>, q: seq<string>, sep: string)
    ensures Terminated(p + q, sep) == Terminated(p, sep) + Terminated(q, sep)
    decreases |q|
  {
    if q == [] {
      assert p + q == p;
    } else {
      var init := q[..|q| - 1];
      TerminatedConcat(p, init, sep);
      assert (p + q)[..|p + q| - 1] == p + init;
    }
  }

  lemma TerminatedPresent(x: string, sep: string)
    ensures Terminated(Present(x), sep) == if x == "" then "" else x + sep
    ensures Terminated([x], sep) == x + sep
  {
    assert [x][..0] == [];
  }

  /** The parts with the separator between them. */
  function JoinWith(parts: seq<string>, sep: string): string
  {
    if parts == [] then ""
    else if |parts| == 1 then parts[0]
    else JoinWith(parts[..|parts| - 1], sep) + sep + parts[|parts| - 1]
  }

  lemma {:induction false} TerminatedIsJoin(parts: seq<string>, sep: string)
    requires parts != []
    ensures Terminated(parts, sep) == JoinWith(parts, sep) + sep
  {
    if |parts| > 1 {
      var init := parts[..|parts| - 1];
      TerminatedIsJoin(init, sep);
      assert init[..|init| - 1] == parts[..|parts| - 1][..|init| - 1];
    } else {
      assert parts[..0] == [];
    }
  }

  /** The joined text starts with the first part and ends with the last. */
  lemma {:induction false} JoinWithEnds(parts: seq<string>, sep: string)
    requires parts != []
    ensures HasPrefix(JoinWith(parts, sep), parts[0])
    ensures HasSuffix(JoinWith(parts, sep), parts[|parts| - 1])
  {
    if |parts| > 1 {
      var init := parts[..|parts| - 1];
      JoinWithEnds(init, sep);
      assert init[0] == parts[0];
      var j := JoinWith(init, sep);
      assert JoinWith(parts, sep)[..|parts[0]|] == j[..|parts[0]|];
    }
  }

  /** Joining with a one-character separator is Common.Join. */
  lemma {:induction false} JoinWithChar(parts: seq<string>, sep: char)
    ensures JoinWith(parts, [sep]) == Join(parts, sep)
  {
    if |parts| > 1 {
      var init := parts[..|parts| - 1];
      JoinWithChar(init, sep);
      JoinSnocJoin(init, parts[|parts| - 1], sep);
      assert init + [parts[|parts| - 1]] == parts;
    }
  }

  lemma {:induction false} JoinSnocJoin(init: seq<string>, last: string, sep: char)
    requires init != []
    ensures Join(init + [last], sep) == Join(init, sep) + [sep] + last
    decreases |init|
  {
    if |init| == 1 {
      assert (init + [last])[1..] == [last];
    } else {
      assert (init + [last])[1..] == init[1..] + [last];
      JoinSnocJoin(init[1..], last, sep);
    }
  }

  /** The first part does not start, and the last part does not end, with a
      character of the cut set. */
  predicate Framed(parts: seq<string>, cut: set<char>)
  {
    parts != [] && parts[0] != [] && parts[0][0] !in cut
      && parts[|parts| - 1] != [] && parts[|parts| - 1][|parts[|parts| - 1]| - 1] !in cut
  }

  lemma JoinFramed(parts: seq<string>, sep: string, cut: set<char>)
    requires Framed(parts, cut)
    ensures var j := JoinWith(parts, sep); j != [] && j[0] !in cut && j[|j| - 1] !in cut
  {
    JoinWithEnds(parts, sep);
    var j := JoinWith(parts, sep);
    var last := parts[|parts| - 1];
    assert j[0] == parts[0][0];
    assert j[|j| - 1] == j[|j| - |last|..][|last| - 1];
  }

  // ---------------------------------------------------------------------
  // FullAddress

  /** The locality line, built as both formatters build it. */
  method BuildLocalityLine(a: ContactAddress) returns (line: string)
    requires HasLocality(a)
    ensures line == LocalityLine(a) && line != ""
  {
    if |a.city| > 0 && |a.state| > 0 {
      line := a.city + ", " + a.state;
    } else {
      line := a.city + a.state;
    }
    if |a.city| > 0 || |a.state| > 0 {
      line := line + " " + a.postalCode;
    } else {
      line := a.postalCode;
    }
  }

  /** The streets part of the address text: each non-empty street followed
      by the separator. */
  method TerminatedStreets(a: ContactAddress, sep: string) returns (addr: string)
    ensures addr == Terminated(Present(a.street1) + Present(a.street2) + Present(a.street3), sep)
  {
    addr := "";
    ghost var parts: seq<string> := [];
    if |a.street1| > 0 {
      TerminatedSnoc(parts, a.street1, sep);
      addr := addr + a.street1 + sep;
      parts := parts + [a.street1];
    }
    assert parts == Present(a.street1);
    if |a.street2| > 0 {
      TerminatedSnoc(parts, a.street2, sep);
      addr := addr + a.street2 + sep;
      parts := parts + [a.street2];
    }
    assert parts == Present(a.street1) + Present(a.street2);
    if |a.street3| > 0 {
      TerminatedSnoc(parts, a.street3, sep);
      addr := addr + a.street3 + sep;
      parts := parts + [a.street3];
    }
    assert parts == Present(a.street1) + Present(a.street2) + Present(a.street3);
  }

  /** The address text both formatters grow step by step: each part of
      the address followed by the separator. */
  method TerminatedParts(a: ContactAddress, sep: string) returns (addr: string)
    ensures addr == Terminated(AddressParts(a), sep)
  {
    addr := TerminatedStreets(a, sep);
    ghost var streets := addr;
    if |a.city| > 0 || |a.state| > 0 || |a.postalCode| > 0 {
      var line := BuildLocalityLine(a);
      addr := addr + line + sep;
    }
    ghost var withLocality := addr;
    if |a.country| > 0 {
      addr := addr + a.country + sep;
    }
    TerminatedPresent(a.country, sep);
    TerminatedPresent(LocalityLine(a), sep);
    assert withLocality == streets + Terminated(LocalityPart(a), sep);
    assert addr == withLocality + Terminated(Present(a.country), sep);
    TerminatedConcat(Present(a.street1) + Present(a.street2) + Present(a.street3), LocalityPart(a), sep);
    TerminatedConcat(Present(a.street1) + Present(a.street2) + Present(a.street3) + LocalityPart(a), Present(a.country), sep);
  }

  /** The text FullAddress builds: each part on its own line, with the
      newlines at both ends trimmed off. */
  function FullAddressText(a: ContactAddress): string
  {
    Trim(Terminated(AddressParts(a), "\n"), {'\n'})
  }

  /** FullAddress. */
  method FullAddress(a: ContactAddress) returns (r: string)
    ensures r == FullAddressText(a)
  {
    var addr := TerminatedParts(a, "\n");
    if |addr| > 0 {
      return Trim(addr, {'\n'});
    }
    return addr;
  }

  /** An address with no fields set gives the empty text. */
  lemma FullAddressEmpty(a: ContactAddress)
    requires a == ContactAddress("", "", "", "", "", "", "")
    ensures FullAddressText(a) == ""
  {
    AddressPartsNonEmpty(a);
  }

  predicate NoNewline(a: ContactAddress)
  {
    NoChar(a.street1, '\n') && NoChar(a.street2, '\n') && NoChar(a.street3, '\n')
      && NoChar(a.city, '\n') && NoChar(a.state, '\n') && NoChar(a.postalCode, '\n')
      && NoChar(a.country, '\n')
  }

  lemma PartsNoNewline(a: ContactAddress)
    requires NoNewline(a)
    ensures forall k :: 0 <= k < |AddressParts(a)| ==> NoChar(AddressParts(a)[k], '\n')
  {
    LocalityLineShape(a);
    var l := LocalityLine(a);
    assert NoChar(l, '\n');
  }

  /** When no field holds a newline, the full address has exactly one line
      per part, in order. */
  lemma FullAddressLines(a: ContactAddress)
    requires NoNewline(a)
    requires a != ContactAddress("", "", "", "", "", "", "")
    ensures Split(FullAddressText(a), '\n') == AddressParts(a)
  {
    var parts := AddressParts(a);
    AddressPartsNonEmpty(a);
    PartsNoNewline(a);
    assert parts[0][0] != '\n';
    var last := parts[|parts| - 1];
    assert last[|last| - 1] != '\n';
    JoinFramed(parts, "\n", {'\n'});
    TerminatedIsJoin(parts, "\n");
    TrimAppend(JoinWith(parts, "\n"), "\n", {'\n'});
    JoinWithChar(parts, '\n');
    SplitJoin(parts, '\n');
  }

  // ---------------------------------------------------------------------
  // EscrowAddress

  const EscrowCut: set<char> := {','}

  /** The single-line escrow text of an address: the parts each followed by
      ", ", then white space, commas and white space trimmed from both ends. */
  function EscrowText(a: ContactAddress): string
  {
    var addr := Terminated(AddressParts(a), ", ");
    if |addr| > 0 then TrimSpace(Trim(TrimSpace(addr), EscrowCut)) else addr
  }

  /** EscrowAddress, shared by the export and the revision (their bodies
      are the same). */
  method EscrowAddress(a: ContactAddress) returns (r: string)
    ensures r == EscrowText(a)
  {
    var addr := TerminatedParts(a, ", ");
    if |addr| > 0 {
      return TrimSpace(Trim(TrimSpace(addr), EscrowCut));
    }
    return addr;
  }

  lemma EscrowAddressEmpty(a: ContactAddress)
    requires a == ContactAddress("", "", "", "", "", "", "")
    ensures EscrowText(a) == ""
  {
    AddressPartsNonEmpty(a);
  }

  /** When the address does not begin or end with white space or a comma,
      the escrow line is exactly its parts joined by ", ". */
  lemma EscrowAddressIsJoin(a: ContactAddress)
    requires Framed(AddressParts(a), SpaceChars + EscrowCut)
    ensures EscrowText(a) == JoinWith(AddressParts(a), ", ")
  {
    var parts := AddressParts(a);
    var j := JoinWith(parts, ", ");
    JoinFramed(parts, ", ", SpaceChars + EscrowCut);
    TerminatedIsJoin(parts, ", ");
    assert j + ", " == (j + ",") + " ";
    TrimAppend(j + ",", " ", SpaceChars);
    TrimAppend(j, ",", EscrowCut);
    TrimKeeps(j, SpaceChars);
  }

  /** Both address formatters list the same parts: the escrow line and the
      full address differ only in the separator. */
  lemma AddressFormsAgree(a: ContactAddress)
    requires NoNewline(a) && Framed(AddressParts(a), SpaceChars + EscrowCut)
    ensures Split(FullAddressText(a), '\n') == AddressParts(a)
    ensures EscrowText(a) == JoinWith(AddressParts(a), ", ")
  {
    AddressPartsNonEmpty(a);
    FullAddressLines(a);
    EscrowAddressIsJoin(a);
  }

  // ---------------------------------------------------------------------
  // Menu, state and preview

  /** GetActions: the shared revision menu with "Contact" as the parent. */
  method GetActions(c: ContactRevisionRecord, isSelf: bool) returns (ret: map<string, string>)
    ensures RevisionMenu(ret, ContactRevisionType, ContactType, "Contact", c.id, c.contactID, c.revisionState, isSelf)
    ensures |ret| == RevisionActionCount(c.revisionState, isSelf)
  {
    ret := RevisionActions(ContactRevisionType, ContactType, "Contact", c.id, c.contactID, c.revisionState, isSelf);
  }

  predicate IsCancelled(c: ContactRevisionRecord) { c.revisionState == StateCancelled }

  predicate IsEditable(c: ContactRevisionRecord) { c.revisionState == StateNew }

  /** Only an editable revision can start approval, and a cancelled one can
      no longer be cancelled. */
  lemma ActionsFollowEditability(c: ContactRevisionRecord, isSelf: bool, ret: map<string, string>)
    requires RevisionMenu(ret, ContactRevisionType, ContactType, "Contact", c.id, c.contactID, c.revisionState, isSelf)
    ensures "Start Approval Process" in ret <==> IsEditable(c)
    ensures IsCancelled(c) ==> "Cancel Revision" !in ret && "View Change Request" in ret
  {
    RevisionMenuFollowsState(ret, ContactRevisionType, ContactType, "Contact", c.id, c.contactID, c.revisionState, isSelf);
  }

  /** GetPreviewName: the name over the organisation. */
  function GetPreviewName(c: ContactRevisionRecord): (r: string)
    ensures HasPrefix(r, c.name) && HasSuffix(r, c.org) && |r| == |c.name| + |c.org| + 1
  {
    c.name + "\n" + c.org
  }

  /** The preview splits back into the name and the organisation. */
  lemma PreviewNameLines(c: ContactRevisionRecord)
    requires NoChar(c.name, '\n') && NoChar(c.org, '\n')
    ensures Split(GetPreviewName(c), '\n') == [c.name, c.org]
  {
    Join2(c.name, c.org, '\n');
    SplitJoin([c.name, c.org], '\n');
  }
}
