// The domain revision's form codecs: DS data entries
// ("keyTag:algorithm:digestType:digest"), the domain class selector, the
// per-state action menu and the hostname preview.
module DomainRevision {
  import opened Common
  import opened RegistrarObject
  import Browser

  // ---------------------------------------------------------------------
  // DNSSEC registries (IANA DNSSEC algorithm numbers and DS digest types)

  const DNSSECAlgorithms: map<int, string> := map[
    1 := "RSAMD5", 2 := "DH", 3 := "DSA", 5 := "RSASHA1", 6 := "DSA-NSEC3-SHA1",
    7 := "RSASHA1-NSEC3-SHA1", 8 := "RSASHA256", 10 := "RSASHA512", 12 := "ECC-GOST",
    13 := "ECDSAP256SHA256", 14 := "ECDSAP384SHA384", 252 := "INDIRECT",
    253 := "PRIVATEDNS", 254 := "PRIVATEOID"]

  const DNSSECDigestTypes: map<int, string> := map[
    1 := "SHA-1", 2 := "SHA-256", 3 := "GOST R 34.11-94", 4 := "SHA-384"]

  /** The error every rejected DS entry reports (its text is as written). */
  const ErrUnableToParseDSDataEntry := "nnable to parse DS Data Entry"

  /** A DS data entry as a value. */
  datatype DSData = DSData(id: int, domainRevisionID: int, keyTag: int, algorithm: int,
                           digestType: int, digest: string)

  /** A DS entry the registrar stores: the key tag is the 16-bit field of
      section 5.1.1 of RFC 4034 without the value 0, algorithm and digest type
      are registered numbers, and the digest is non-empty upper-case
      alphanumeric text. */
  predicate ValidDS(d: DSData)
  {
    1 <= d.keyTag <= 65535
    && d.algorithm in DNSSECAlgorithms
    && d.digestType in DNSSECDigestTypes
    && |d.digest| > 0
    && (forall i :: 0 <= i < |d.digest| ==> IsAlnum(d.digest[i]))
    && NoLowerAscii(d.digest)
  }

  /** The conditions under which ParseFromFormValue accepts its input. */
  predicate DSFormAccepted(input: string)
  {
    var t := Split(input, ':');
    |t| == 4
    && ParseInt(t[0]).Some? && 1 <= ParseInt(t[0]).value <= 65535
    && ParseInt(t[1]).Some? && ParseInt(t[1]).value in DNSSECAlgorithms
    && ParseInt(t[2]).Some? && ParseInt(t[2]).value in DNSSECDigestTypes
    && |t[3]| > 0 && (forall i :: 0 <= i < |t[3]| ==> IsAlnum(t[3][i]))
  }

  /** The entry a successful ParseFromFormValue leaves in a fresh
      DSDataEntry. */
  function ParseDSForm(input: string): (r: Result<DSData>)
    ensures r.Ok? <==> DSFormAccepted(input)
    ensures r.Ok? ==> ValidDS(r.value) && r.value.id == 0 && r.value.domainRevisionID == 0
    ensures r.Ok? ==>
      var t := Split(input, ':');
      r.value.keyTag == ParseInt(t[0]).value && r.value.algorithm == ParseInt(t[1]).value
      && r.value.digestType == ParseInt(t[2]).value && r.value.digest == ToUpper(t[3])
    ensures r.Err? ==> r.msg == ErrUnableToParseDSDataEntry
  {
    var t := Split(input, ':');
    if |t| != 4 then Err(ErrUnableToParseDSDataEntry)
    else if ParseInt(t[0]).None? || ParseInt(t[0]).value <= 0 || ParseInt(t[0]).value > 65535 then
      Err(ErrUnableToParseDSDataEntry)
    else if ParseInt(t[1]).None? || ParseInt(t[1]).value !in DNSSECAlgorithms then
      Err(ErrUnableToParseDSDataEntry)
    else if ParseInt(t[2]).None? || ParseInt(t[2]).value !in DNSSECDigestTypes then
      Err(ErrUnableToParseDSDataEntry)
    else if |t[3]| == 0 || !(forall i :: 0 <= i < |t[3]| ==> IsAlnum(t[3][i])) then
      Err(ErrUnableToParseDSDataEntry)
    else
      ToUpperIdempotent(t[3]);
      Ok(DSData(0, 0, ParseInt(t[0]).value, ParseInt(t[1]).value, ParseInt(t[2]).value, ToUpper(t[3])))
  }

  /** The receiver after ParseFromFormValue, accepted or not: each field is
      written as soon as its token has been read (an unparsable number is
      stored as the value strconv.ParseInt returns with its error), and the
      fields after the first failing check keep their previous values. */
  function AfterParse(prev: DSData, input: string): DSData
  {
    var t := Split(input, ':');
    if |t| != 4 then prev
    else
      var kt := ParseIntValue(t[0]);
      if ParseInt(t[0]).None? || kt <= 0 || kt > 65535 then prev.(keyTag := kt)
      else
        var alg := ParseIntValue(t[1]);
        if ParseInt(t[1]).None? || alg !in DNSSECAlgorithms then prev.(keyTag := kt, algorithm := alg)
        else
          var dt := ParseIntValue(t[2]);
          if ParseInt(t[2]).None? || dt !in DNSSECDigestTypes then
            prev.(keyTag := kt, algorithm := alg, digestType := dt)
          else if |t[3]| == 0 || !(forall i :: 0 <= i < |t[3]| ==> IsAlnum(t[3][i])) then
            prev.(keyTag := kt, algorithm := alg, digestType := dt)
          else prev.(keyTag := kt, algorithm := alg, digestType := dt, digest := ToUpper(t[3]))
  }

  /** On success the receiver holds the parsed entry whatever it held
      before (only its IDs are kept). */
  lemma {:induction false} AfterParseAccepted(prev: DSData, input: string)
    requires DSFormAccepted(input)
    ensures AfterParse(prev, input)
         == ParseDSForm(input).value.(id := prev.id, domainRevisionID := prev.domainRevisionID)
  {
    var t := Split(input, ':');
    assert ParseIntValue(t[0]) == ParseInt(t[0]).value;
    assert ParseIntValue(t[1]) == ParseInt(t[1]).value;
    assert ParseIntValue(t[2]) == ParseInt(t[2]).value;
  }

  /** A rejected entry can still have overwritten fields: after a valid key
      tag and an unparsable algorithm the key tag is the new one and the
      algorithm is 0, the value strconv.ParseInt returns on a syntax error. */
  lemma BadAlgorithmOverwrites(prev: DSData, input: string)
    requires var t := Split(input, ':');
      |t| == 4 && ParseInt(t[0]).Some? && 1 <= ParseInt(t[0]).value <= 65535 && !IntSyntax(t[1])
    ensures ParseDSForm(input).Err?
    ensures AfterParse(prev, input) == prev.(keyTag := ParseInt(Split(input, ':')[0]).value, algorithm := 0)
  {
  }

  class DSDataEntry {
    var id: int
    var domainRevisionID: int
    var keyTag: int
    var algorithm: int
    var digestType: int
    var digest: string

    constructor()
      ensures Fields() == DSData(0, 0, 0, 0, 0, "")
    {
      id, domainRevisionID, keyTag, algorithm, digestType, digest := 0, 0, 0, 0, 0, "";
    }

    function Fields(): DSData
      reads this
    {
      DSData(id, domainRevisionID, keyTag, algorithm, digestType, digest)
    }

    /** ParseFromFormValue: splits the input on ':' and checks and stores
        the four fields one after the other. */
    method ParseFromFormValue(input: string) returns (err: Option<string>)
      modifies this
      ensures err.None? <==> DSFormAccepted(input)
      ensures err.Some? ==> err.value == ErrUnableToParseDSDataEntry
      ensures Fields() == AfterParse(old(Fields()), input)
    {
      var tokens := Split(input, ':');
      if |tokens| != 4 {
        return Some(ErrUnableToParseDSDataEntry);
      }
      keyTag := ParseIntValue(tokens[0]);
      if ParseInt(tokens[0]).None? {
        return Some(ErrUnableToParseDSDataEntry);
      }
      if keyTag <= 0 || keyTag > 65535 {
        return Some(ErrUnableToParseDSDataEntry);
      }
      algorithm := ParseIntValue(tokens[1]);
      if ParseInt(tokens[1]).None? {
        return Some(ErrUnableToParseDSDataEntry);
      }
      if algorithm !in DNSSECAlgorithms {
        return Some(ErrUnableToParseDSDataEntry);
      }
      digestType := ParseIntValue(tokens[2]);
      if ParseInt(tokens[2]).None? {
        return Some(ErrUnableToParseDSDataEntry);
      }
      if digestType !in DNSSECDigestTypes {
        return Some(ErrUnableToParseDSDataEntry);
      }
      if |tokens[3]| == 0 {
        return Some(ErrUnableToParseDSDataEntry);
      }
      if forall i :: 0 <= i < |tokens[3]| ==> IsAlnum(tokens[3][i]) {
        digest := ToUpper(tokens[3]);
      } else {
        return Some(ErrUnableToParseDSDataEntry);
      }
      return None;
    }
  }

  /** FormValue: "%d:%d:%d:%s" of key tag, algorithm, digest type, digest. */
  function FormValue(d: DSData): string
  {
    IntToString(d.keyTag) + ":" + IntToString(d.algorithm) + ":" + IntToString(d.digestType) + ":" + d.digest
  }

  /** FormDivName: the same fields separated by '-'. */
  function FormDivName(d: DSData): string
  {
    IntToString(d.keyTag) + "-" + IntToString(d.algorithm) + "-" + IntToString(d.digestType) + "-" + d.digest
  }

  /** DisplayName is the form value. */
  function DisplayName(d: DSData): string
  {
    FormValue(d)
  }

  lemma FormValueIsJoin(d: DSData)
    ensures FormValue(d) == Join([IntToString(d.keyTag), IntToString(d.algorithm), IntToString(d.digestType), d.digest], ':')
  {
    Join4(IntToString(d.keyTag), IntToString(d.algorithm), IntToString(d.digestType), d.digest, ':');
  }

  lemma NoColonInNumber(i: int)
    ensures NoChar(IntToString(i), ':')
  {
    IntToStringChars(i);
  }

  /** Parsing the form value of a valid entry gives the entry back (with
      the IDs a freshly parsed entry has). */
  lemma ParseOfFormValue(d: DSData)
    requires ValidDS(d)
    ensures ParseDSForm(FormValue(d)) == Ok(d.(id := 0, domainRevisionID := 0))
  {
    var parts := [IntToString(d.keyTag), IntToString(d.algorithm), IntToString(d.digestType), d.digest];
    FormValueIsJoin(d);
    NoColonInNumber(d.keyTag);
    NoColonInNumber(d.algorithm);
    NoColonInNumber(d.digestType);
    assert NoChar(d.digest, ':') by {
      forall i | 0 <= i < |d.digest| ensures d.digest[i] != ':' {
        assert IsAlnum(d.digest[i]);
      }
    }
    SplitJoin(parts, ':');
    ParseIntOfFormatted(d.keyTag);
    ParseIntOfFormatted(d.algorithm);
    ParseIntOfFormatted(d.digestType);
    ToUpperIdempotent(d.digest);
  }

  /** For canonical decimal fields and an upper-case digest, FormValue of
      the parsed entry is the text that was parsed. */
  lemma FormValueOfParse(s: string)
    requires DSFormAccepted(s)
    requires var t := Split(s, ':'); Canonical(t[0]) && Canonical(t[1]) && Canonical(t[2]) && NoLowerAscii(t[3])
    ensures FormValue(ParseDSForm(s).value) == s
  {
    var t := Split(s, ':');
    FormattedOfParsed(t[0]);
    FormattedOfParsed(t[1]);
    FormattedOfParsed(t[2]);
    ToUpperIdempotent(t[3]);
    JoinSplit(s, ':');
    Join4(t[0], t[1], t[2], t[3], ':');
    assert t == [t[0], t[1], t[2], t[3]];
  }

  /** FormDivName is FormValue with every ':' replaced by '-' (a digest
      never holds ':'), and it is the row id the browser gives the same
      entry; the form value is the browser's hidden value. */
  lemma DivNameAgreesWithBrowser(d: DSData)
    requires NoChar(d.digest, ':')
    ensures FormDivName(d) == ReplaceChar(FormValue(d), ':', '-')
    ensures FormValue(d) == Browser.DSValue(IntToString(d.keyTag), IntToString(d.algorithm), IntToString(d.digestType), d.digest)
    ensures FormDivName(d) == Browser.DSRowId(FormValue(d))
    ensures DisplayName(d) == FormValue(d)
  {
    var a, b, c := IntToString(d.keyTag), IntToString(d.algorithm), IntToString(d.digestType);
    NoColonInNumber(d.keyTag);
    NoColonInNumber(d.algorithm);
    NoColonInNumber(d.digestType);
    FormValueIsJoin(d);
    Join4(a, b, c, d.digest, '-');
    ReplaceCharJoin([a, b, c, d.digest], ':', '-');
  }

  /** A key tag of 0 is rejected by the server although the browser's key
      tag check (integral, 0 through 65535) accepts the number 0. */
  lemma ServerRejectsKeyTagZero(rest: string)
    ensures ParseDSForm("0:" + rest).Err?
    ensures Browser.KeyTagNumberOk(Browser.Finite(0.0))
  {
    var s := "0:" + rest;
    assert s[1..] == ":" + rest;
    assert s[1..][1..] == rest;
    assert Split(s, ':')[0] == "0";
    assert DigitsValue("0") == 0;
  }

  // ---------------------------------------------------------------------
  // ParseDSDataEntries

  /** The pieces each value gives, concatenated in order. */
  function Collect<A, B>(values: seq<A>, piece: A -> seq<B>): seq<B>
  {
    if values == [] then []
    else Collect(values[..|values| - 1], piece) + piece(values[|values| - 1])
  }

  /** The entry an accepted form value gives. */
  function AcceptedOne(value: string): seq<DSData>
  {
    if ParseDSForm(value).Ok? then [ParseDSForm(value).value] else []
  }

  /** The error a rejected form value produces. */
  function RejectedOne(value: string): seq<string>
  {
    if ParseDSForm(value).Ok? then [] else ["unable to parse ds data entry " + ErrUnableToParseDSDataEntry]
  }

  /** The entries accepted from a list of form values, in order. */
  function AcceptedDS(values: seq<string>): seq<DSData>
  {
    Collect(values, AcceptedOne)
  }

  /** One wrapped error per rejected form value, in order. */
  function RejectedDS(values: seq<string>): seq<string>
  {
    Collect(values, RejectedOne)
  }

  /** ParseDSDataEntries: every form value is parsed into a fresh entry;
      accepted entries are collected, rejected ones produce an error. */
  method ParseDSDataEntries(values: seq<string>) returns (dsDatas: seq<DSData>, errs: seq<string>)
    ensures dsDatas == AcceptedDS(values)
    ensures errs == RejectedDS(values)
  {
    dsDatas, errs := [], [];
    var i := 0;
    while i < |values|
      invariant 0 <= i <= |values|
      invariant dsDatas == AcceptedDS(values[..i])
      invariant errs == RejectedDS(values[..i])
    {
      var dsData := new DSDataEntry();
      var err := dsData.ParseFromFormValue(values[i]);
      assert values[..i + 1][..i] == values[..i];
      if err.Some? {
        errs := errs + ["unable to parse ds data entry " + err.value];
      } else {
        AfterParseAccepted(DSData(0, 0, 0, 0, 0, ""), values[i]);
        dsDatas := dsDatas + [dsData.Fields()];
      }
      i := i + 1;
    }
    assert values[..i] == values;
  }

  /** Parsing a concatenation of form lists concatenates the results: the
      accepted entries keep the input order, and so do the errors. */
  lemma ParseDSListsAppend(a: seq<string>, b: seq<string>)
    ensures AcceptedDS(a + b) == AcceptedDS(a) + AcceptedDS(b)
    ensures RejectedDS(a + b) == RejectedDS(a) + RejectedDS(b)
  {
    CollectAppend(a, b, AcceptedOne);
    CollectAppend(a, b, RejectedOne);
  }

  lemma {:induction false} CollectAppend<A, B>(a: seq<A>, b: seq<A>, piece: A -> seq<B>)
    ensures Collect(a + b, piece) == Collect(a, piece) + Collect(b, piece)
    decreases |b|
  {
    if b == [] {
      assert a + b == a;
    } else {
      var b' := b[..|b| - 1];
      CollectAppend(a, b', piece);
      assert (a + b)[..|a + b| - 1] == a + b';
      assert (a + b)[|a + b| - 1] == b[|b| - 1];
    }
  }

  /** Every form value yields an entry or an error, every entry is valid, and
      each one is the parse of some form value. */
  lemma {:induction false} ParseDSListsAccount(values: seq<string>)
    ensures |AcceptedDS(values)| + |RejectedDS(values)| == |values|
    ensures forall k :: 0 <= k < |AcceptedDS(values)| ==> ValidDS(AcceptedDS(values)[k])
    ensures forall k :: 0 <= k < |AcceptedDS(values)| ==>
      exists j :: 0 <= j < |values| && ParseDSForm(values[j]) == Ok(AcceptedDS(values)[k])
  {
    if values != [] {
      var init := values[..|values| - 1];
      ParseDSListsAccount(init);
      var acc := AcceptedDS(values);
      forall k | 0 <= k < |acc|
        ensures exists j :: 0 <= j < |values| && ParseDSForm(values[j]) == Ok(acc[k])
      {
        if k < |AcceptedDS(init)| {
          var j :| 0 <= j < |init| && ParseDSForm(init[j]) == Ok(AcceptedDS(init)[k]);
          assert values[j] == init[j];
        } else {
          assert ParseDSForm(values[|values| - 1]) == Ok(acc[k]);
        }
      }
    }
  }

  // ---------------------------------------------------------------------
  // CompareDSDataEntries

  function DSIds(ds: seq<DSData>): (r: seq<int>)
    ensures |r| == |ds| && forall k :: 0 <= k < |ds| ==> r[k] == ds[k].id
  {
    seq(|ds|, k requires 0 <= k < |ds| => ds[k].id)
  }

  /** CompareDSDataEntries: equal counts, and every ID of each list occurs
      in the other. */
  method CompareDSDataEntries(dse: seq<DSData>, dseo: seq<DSData>) returns (r: bool)
    ensures r <==> SameIdLists(DSIds(dse), DSIds(dseo))
  {
    r := CompareIdLists(DSIds(dse), DSIds(dseo));
  }

  // ---------------------------------------------------------------------
  // Domain classes

  const DomainClassHighValue := "high-value"
  const DomainClassInUse := "in-use"
  const DomainClassParked := "parked"
  const DomainClassOther := "other"

  predicate IsNamedClass(c: string)
  {
    c == DomainClassHighValue || c == DomainClassInUse || c == DomainClassParked
  }

  /** getSelectedDomainClass over the two form values "domain_class"
      (`selected`) and "domain_class_other" (`other`). */
  function GetSelectedDomainClass(selected: string, other: string): (r: Result<string>)
    ensures r.Ok? <==> (other != "" && selected == DomainClassOther && other != DomainClassOther)
                       || (other == "" && IsNamedClass(selected))
    ensures r.Ok? ==> r.value == (if other != "" then other else selected)
    ensures other != "" && selected != DomainClassOther ==>
      r == Err("entering a domain class and selecting a domain class is not supported")
    ensures other == "" && selected == DomainClassOther ==> r == Err("a domain class must be provided")
  {
    if other != "" then
      if selected != "other" then Err("entering a domain class and selecting a domain class is not supported")
      else if other == "other" then Err("a domain class of " + other + " is not supported")
      else Ok(other)
    else if selected == DomainClassHighValue then Ok(DomainClassHighValue)
    else if selected == DomainClassInUse then Ok(DomainClassInUse)
    else if selected == DomainClassParked then Ok(DomainClassParked)
    else if selected == DomainClassOther then Err("a domain class must be provided")
    else Err("a domain class of " + selected + " is not supported")
  }

  /** IsSelectedClass: "other" stands for every class that is not one of
      the three named ones. */
  predicate IsSelectedClass(revisionClass: string, c: string)
  {
    if c == DomainClassOther then !IsNamedClass(revisionClass) else revisionClass == c
  }

  /** An accepted class is never empty and never "other"; without typed
      text it is the selected one; typed text naming one of the three
      classes is accepted as that class. */
  lemma SelectedClassProperties(selected: string, other: string)
    requires GetSelectedDomainClass(selected, other).Ok?
    ensures var c := GetSelectedDomainClass(selected, other).value;
      c != "" && c != DomainClassOther
      && (other == "" ==> c == selected && IsSelectedClass(c, selected))
      && (IsSelectedClass(c, DomainClassOther) <==> !IsNamedClass(c))
    ensures GetSelectedDomainClass(DomainClassOther, DomainClassParked) == Ok(DomainClassParked)
  {
  }

  /** Whatever a revision's class, exactly one of the four selector choices
      shows as selected. */
  lemma ExactlyOneChoiceSelected(c: string)
    ensures IsSelectedClass(c, DomainClassHighValue) || IsSelectedClass(c, DomainClassInUse)
         || IsSelectedClass(c, DomainClassParked) || IsSelectedClass(c, DomainClassOther)
    ensures IsSelectedClass(c, DomainClassOther) ==>
      !IsSelectedClass(c, DomainClassHighValue) && !IsSelectedClass(c, DomainClassInUse)
      && !IsSelectedClass(c, DomainClassParked)
    ensures IsSelectedClass(c, DomainClassHighValue) ==>
      !IsSelectedClass(c, DomainClassInUse) && !IsSelectedClass(c, DomainClassParked)
    ensures IsSelectedClass(c, DomainClassInUse) ==> !IsSelectedClass(c, DomainClassParked)
  {
  }

  // ---------------------------------------------------------------------
  // The revision record: state, action menu, preview

  /** A domain revision: its state, the desired object state, the class,
      the hostnames and DS entries, and the ten flags the registrar expects
      the registry to hold. */
  datatype DomainRevisionRecord = DomainRevisionRecord(id: int, domainID: int, revisionState: string,
                                                       desiredState: string, domainClass: string,
                                                       hostnames: seq<string>, dsDataEntries: seq<DSData>,
                                                       clientDeleteProhibited: bool, serverDeleteProhibited: bool,
                                                       clientHold: bool, serverHold: bool,
                                                       clientRenewProhibited: bool, serverRenewProhibited: bool,
                                                       clientTransferProhibited: bool, serverTransferProhibited: bool,
                                                       clientUpdateProhibited: bool, serverUpdateProhibited: bool)

  /** GetActions: the shared revision menu with "Domain" as the parent. */
  method GetActions(d: DomainRevisionRecord, isSelf: bool) returns (ret: map<string, string>)
    ensures RevisionMenu(ret, DomainRevisionType, DomainType, "Domain", d.id, d.domainID, d.revisionState, isSelf)
    ensures |ret| == RevisionActionCount(d.revisionState, isSelf)
  {
    ret := RevisionActions(DomainRevisionType, DomainType, "Domain", d.id, d.domainID, d.revisionState, isSelf);
  }

  predicate IsCancelled(d: DomainRevisionRecord) { d.revisionState == StateCancelled }

  predicate IsEditable(d: DomainRevisionRecord) { d.revisionState == StateNew }

  /** The menu agrees with the editability and cancellation predicates:
      only an editable revision can start approval, and a cancelled one
      can no longer be cancelled. */
  lemma ActionsFollowEditability(d: DomainRevisionRecord, isSelf: bool, ret: map<string, string>)
    requires RevisionMenu(ret, DomainRevisionType, DomainType, "Domain", d.id, d.domainID, d.revisionState, isSelf)
    ensures "Start Approval Process" in ret <==> IsEditable(d)
    ensures IsCancelled(d) ==> "Cancel Revision" !in ret && "View Change Request" in ret
  {
    RevisionMenuFollowsState(ret, DomainRevisionType, DomainType, "Domain", d.id, d.domainID, d.revisionState, isSelf);
  }

  /** GetPreviewHostnames: each hostname followed by a newline. */
  method GetPreviewHostnames(d: DomainRevisionRecord) returns (ret: string)
    ensures ret == Lines(d.hostnames)
  {
    ret := "";
    var i := 0;
    while i < |d.hostnames|
      invariant 0 <= i <= |d.hostnames|
      invariant ret == Lines(d.hostnames[..i])
    {
      assert d.hostnames[..i + 1][..i] == d.hostnames[..i];
      ret := ret + d.hostnames[i] + "\n";
      i := i + 1;
    }
    assert d.hostnames[..i] == d.hostnames;
  }
}
