// Contacts: the registry ID a contact is created under, the extension
// strings shown next to phone numbers, the values a new revision is
// pre-filled with and the one-time setting of the registry ID.

module Contact {
  import opened Common
  import opened RegistrarObject
  import opened Core
  import opened ContactRevision

  /** The fields of a ContactExport that GetRegistryID reads. */
  datatype ContactExport = ContactExport(id: int, contactRegistryID: string)

  /** A contact as the registrar holds it: the registry's view of its
      phone extensions, and its current revision. */
  datatype ContactRecord = ContactRecord(
    id: int, prepared: bool, contactRegistryID: string,
    voicePhoneExtension: string, faxPhoneExtension: string,
    currentRevisionID: NullInt64, currentRevision: ContactRevisionRecord)

  const ContactFieldName := "Name"
  const ContactFieldOrg := "Org"
  const ContactFieldEmail := "Email"
  const ContactFieldFullAddress := "FullAddress"
  const ContactFieldAddressStreet1 := "Street1"
  const ContactFieldAddressStreet2 := "Street2"
  const ContactFieldAddressStreet3 := "Street3"
  const ContactFieldAddressCity := "City"
  const ContactFieldAddressState := "State"
  const ContactFieldAddressPostalCode := "PostalCode"
  const ContactFieldAddressCountry := "Country"
  const ContactFieldVoiceNumber := "VoiceNumber"
  const ContactFieldFaxNumber := "FaxNumber"
  const ContactFieldVoiceExtension := "VoiceExt"
  const ContactFieldFaxExtension := "FaxExt"

  const UnPreparedContactError := "Error: Contact Not Prepared"
  const ErrRegistryIDAlreadySet := "unable to set registry ID that has already been set"

  // ---------------------------------------------------------------------
  // GetRegistryID

  /** GetRegistryID: the registry ID already recorded, else "GOREG-<id>"
      on the first attempt and "GOREG-<id>-<iteration>" on later ones. */
  function GetRegistryID(c: ContactExport, iteration: int): (r: string)
    ensures c.contactRegistryID != "" ==> r == c.contactRegistryID
    ensures c.contactRegistryID == "" ==> HasPrefix(r, "GOREG-" + IntToString(c.id))
    ensures c.contactRegistryID == "" && iteration == 0 ==> |r| == 6 + |IntToString(c.id)|
    ensures c.contactRegistryID == "" && iteration != 0 ==>
      HasSuffix(r, "-" + IntToString(iteration)) && |r| > 7 + |IntToString(c.id)|
  {
    if c.contactRegistryID != "" then c.contactRegistryID
    else
      var head := "GOREG-" + IntToString(c.id);
      if iteration == 0 then
        assert head[..|head|] == head;
        head
      else
        var r := head + "-" + IntToString(iteration);
        assert r[..|head|] == head;
        assert r[|r| - |IntToString(iteration)| - 1..] == "-" + IntToString(iteration);
        IntToStringSign(iteration);
        r
  }

  /** A contact without a registry ID gets a different candidate on every
      iteration, so retrying with the next iteration never repeats one. */
  lemma RegistryIDCandidatesDistinct(c: ContactExport, i: int, j: int)
    requires c.contactRegistryID == "" && i != j
    ensures GetRegistryID(c, i) != GetRegistryID(c, j)
  {
    var head := "GOREG-" + IntToString(c.id) + "-";
    if i != 0 && j != 0 && GetRegistryID(c, i) == GetRegistryID(c, j) {
      assert GetRegistryID(c, i) == head + IntToString(i);
      assert GetRegistryID(c, j) == head + IntToString(j);
      assert IntToString(i) == GetRegistryID(c, i)[|head|..];
      assert IntToString(j) == GetRegistryID(c, j)[|head|..];
      IntToStringInjective(i, j);
    }
  }

  // ---------------------------------------------------------------------
  // Extensions, suggested and current values

  /** The extension shown next to a number: "x <ext>", or nothing. */
  function ExtensionText(ext: string): (r: string)
    ensures r == "" <==> ext == ""
    ensures r != "" ==> HasPrefix(r, "x ") && r[2..] == ext
  {
    if |ext| != 0 then "x " + ext else ""
  }

  /** GetRegistryExtension: the registry's voice or fax extension, shown
      as "x <ext>"; nothing for an empty extension or another field. */
  function GetRegistryExtension(c: ContactRecord, field: string): (r: string)
    ensures field != ContactFieldFaxExtension && field != ContactFieldVoiceExtension ==> r == ""
    ensures field == ContactFieldFaxExtension ==> r == ExtensionText(c.faxPhoneExtension)
    ensures field == ContactFieldVoiceExtension ==> r == ExtensionText(c.voicePhoneExtension)
  {
    var ext := if field == ContactFieldFaxExtension then c.faxPhoneExtension
               else if field == ContactFieldVoiceExtension then c.voicePhoneExtension
               else "";
    ExtensionText(ext)
  }

  /** The field names SuggestedRevisionValue knows. */
  const SuggestedFields: set<string> := {
    ContactFieldName, ContactFieldOrg, ContactFieldEmail, ContactFieldAddressStreet1,
    ContactFieldAddressStreet2, ContactFieldAddressStreet3, ContactFieldAddressCity,
    ContactFieldAddressState, ContactFieldAddressPostalCode, ContactFieldAddressCountry,
    ContactFieldVoiceNumber, ContactFieldVoiceExtension, ContactFieldFaxNumber,
    ContactFieldFaxExtension, ContactFieldFullAddress, SavedObjectNote}

  /** SuggestedRevisionValue: the current revision's value of the named
      field, the multi-line address for FullAddress, and "" without a
      current revision or for another field. */
  function SuggestedRevisionValue(c: ContactRecord, field: string): (r: string)
    ensures !c.currentRevisionID.valid ==> r == ""
    ensures field !in SuggestedFields ==> r == ""
    ensures c.currentRevisionID.valid && field == ContactFieldFullAddress ==>
      r == FullAddressText(c.currentRevision.address)
    ensures c.currentRevisionID.valid && field == ContactFieldVoiceExtension ==>
      r == c.currentRevision.voicePhoneExtension
    ensures c.currentRevisionID.valid && field == ContactFieldFaxExtension ==>
      r == c.currentRevision.faxPhoneExtension
  {
    var rev := c.currentRevision;
    var a := rev.address;
    if !c.currentRevisionID.valid then ""
    else if field == ContactFieldName then rev.name
    else if field == ContactFieldOrg then rev.org
    else if field == ContactFieldEmail then rev.emailAddress
    else if field == ContactFieldAddressStreet1 then a.street1
    else if field == ContactFieldAddressStreet2 then a.street2
    else if field == ContactFieldAddressStreet3 then a.street3
    else if field == ContactFieldAddressCity then a.city
    else if field == ContactFieldAddressState then a.state
    else if field == ContactFieldAddressPostalCode then a.postalCode
    else if field == ContactFieldAddressCountry then a.country
    else if field == ContactFieldVoiceNumber then rev.voicePhoneNumber
    else if field == ContactFieldVoiceExtension then rev.voicePhoneExtension
    else if field == ContactFieldFaxNumber then rev.faxPhoneNumber
    else if field == ContactFieldFaxExtension then rev.faxPhoneExtension
    else if field == ContactFieldFullAddress then FullAddressText(a)
    else if field == SavedObjectNote then rev.savedNotes
    else ""
  }

  /** GetCurrentValue: the suggested value, or the not-prepared error. */
  function GetCurrentValue(c: ContactRecord, field: string): (r: string)
    ensures !c.prepared ==> r == UnPreparedContactError
    ensures c.prepared ==> r == SuggestedRevisionValue(c, field)
  {
    if !c.prepared then UnPreparedContactError else SuggestedRevisionValue(c, field)
  }

  /** GetCurrentExtension: the current revision's value of the field shown
      as "x <ext>", or the not-prepared error. */
  function GetCurrentExtension(c: ContactRecord, field: string): (r: string)
    ensures !c.prepared ==> r == UnPreparedContactError
    ensures c.prepared ==> r == ExtensionText(SuggestedRevisionValue(c, field))
  {
    if !c.prepared then UnPreparedContactError else ExtensionText(SuggestedRevisionValue(c, field))
  }

  /** Once the current revision carries the registry's extensions, the
      prepared contact shows the same extension text for both sources;
      without a current revision nothing is shown. */
  lemma CurrentExtensionMatchesRegistry(c: ContactRecord, field: string)
    requires c.prepared && field in {ContactFieldVoiceExtension, ContactFieldFaxExtension}
    ensures (c.currentRevisionID.valid && c.currentRevision.voicePhoneExtension == c.voicePhoneExtension
             && c.currentRevision.faxPhoneExtension == c.faxPhoneExtension) ==>
      GetCurrentExtension(c, field) == GetRegistryExtension(c, field)
    ensures !c.currentRevisionID.valid ==> GetCurrentExtension(c, field) == ""
  {
  }

  // ---------------------------------------------------------------------
  // SetRegistryID

  /** What SetRegistryID does with the recorded ID and the decoded JSON
      string: a recorded ID is never overwritten, a decoding failure is
      reported, and otherwise the upper-cased string becomes the ID. */
  function RegistryIDUpdate(current: string, decoded: Result<string>): (r: Result<string>)
    ensures current != "" ==> r == Err(ErrRegistryIDAlreadySet)
    ensures current == "" && decoded.Err? ==> r == Err("unable to unmarsal registryID: " + decoded.msg)
    ensures current == "" && decoded.Ok? ==> r == Ok(ToUpper(decoded.value))
  {
    if current != "" then Err(ErrRegistryIDAlreadySet)
    else if decoded.Err? then Err("unable to unmarsal registryID: " + decoded.msg)
    else Ok(ToUpper(decoded.value))
  }

  /** A registry ID once set to something non-empty can never be set again;
      setting it to itself is refused too. */
  lemma RegistryIDSetOnce(current: string, first: Result<string>, second: Result<string>)
    requires RegistryIDUpdate(current, first).Ok? && RegistryIDUpdate(current, first).value != ""
    ensures current == ""
    ensures RegistryIDUpdate(RegistryIDUpdate(current, first).value, second) == Err(ErrRegistryIDAlreadySet)
  {
  }

  class ContactObject {
    var contactRegistryID: string

    constructor (registryID: string)
      ensures contactRegistryID == registryID
    {
      contactRegistryID := registryID;
    }

    /** SetRegistryID: `decoded` is the result of decoding the request body
        as a JSON string and `save` the outcome of saving the contact. */
    method SetRegistryID(decoded: Result<string>, save: Option<string>) returns (err: Option<string>)
      modifies this
      ensures RegistryIDUpdate(old(contactRegistryID), decoded).Err? ==>
        contactRegistryID == old(contactRegistryID) && err == Some(RegistryIDUpdate(old(contactRegistryID), decoded).msg)
      ensures RegistryIDUpdate(old(contactRegistryID), decoded).Ok? ==>
        contactRegistryID == RegistryIDUpdate(old(contactRegistryID), decoded).value && err == save
    {
      if contactRegistryID != "" {
        return Some(ErrRegistryIDAlreadySet);
      }
      if decoded.Err? {
        return Some("unable to unmarsal registryID: " + decoded.msg);
      }
      contactRegistryID := ToUpper(decoded.value);
      err := save;
    }
  }
}
