// The in-page form helper of the registrar's web interface: the address,
// key-tag and digest validators, the feedback lines shown under the entry
// boxes, and the five add / remove / undo list controllers that maintain
// the multi-valued form fields (host addresses, DS records, hostnames,
// approver sets and approvers).
//
// The page is modelled as a map from element id to row; a row has the
// title text shown to the user and, while it is not struck through, the
// value of its hidden input (the value the form submits).
module Browser {
  import opened Common

  // ---------------------------------------------------------------------
  // Character classes of JavaScript regular expressions and parseInt

  /** `\s` of a JavaScript regular expression (WhiteSpace and LineTerminator),
      which is also the set parseInt skips. */
  predicate IsJsSpace(c: char)
  {
    var n := c as int;
    n == 0x09 || n == 0x0A || n == 0x0B || n == 0x0C || n == 0x0D || n == 0x20
    || n == 0xA0 || n == 0x1680 || 0x2000 <= n <= 0x200A || n == 0x2028
    || n == 0x2029 || n == 0x202F || n == 0x205F || n == 0x3000 || n == 0xFEFF
  }

  /** The characters `.` of a JavaScript regular expression does not match. */
  predicate IsLineTerminator(c: char)
  {
    var n := c as int;
    n == 0x0A || n == 0x0D || n == 0x2028 || n == 0x2029
  }

  predicate AllJsSpace(s: string) { forall i :: 0 <= i < |s| ==> IsJsSpace(s[i]) }

  predicate IsHexDigit(c: char) { IsDigit(c) || 'a' <= c <= 'f' || 'A' <= c <= 'F' }

  /** The input with its leading `\s*` removed. */
  function DropLeadingSpace(s: string): (r: string)
    ensures |r| <= |s| && r == s[|s| - |r|..]
    ensures AllJsSpace(s[..|s| - |r|])
    ensures r != [] ==> !IsJsSpace(r[0])
  {
    if s != [] && IsJsSpace(s[0]) then DropLeadingSpace(s[1..]) else s
  }

  /** `s.replace(/\s/g, '')`. */
  function StripSpace(s: string): (r: string)
    ensures forall i :: 0 <= i < |r| ==> !IsJsSpace(r[i])
    ensures AllJsSpace(s) ==> r == []
  {
    if s == [] then []
    else if IsJsSpace(s[0]) then StripSpace(s[1..])
    else [s[0]] + StripSpace(s[1..])
  }

  function IndexOfChar(s: string, c: char): (r: int)
    ensures -1 <= r < |s|
    ensures r >= 0 ==> s[r] == c && NoChar(s[..r], c)
    ensures r < 0 ==> NoChar(s, c)
  {
    if s == [] then -1
    else if s[0] == c then 0
    else
      var r := IndexOfChar(s[1..], c);
      if r < 0 then -1 else r + 1
  }

  function LastIndexOfChar(s: string, c: char): (r: int)
    ensures -1 <= r < |s|
    ensures r >= 0 ==> s[r] == c && NoChar(s[r + 1..], c)
    ensures r < 0 ==> NoChar(s, c)
  {
    if s == [] then -1
    else if s[|s| - 1] == c then |s| - 1
    else LastIndexOfChar(s[..|s| - 1], c)
  }

  // ---------------------------------------------------------------------
  // isIPv4Address

  /** One alternative of `[0-9]|[1-9][0-9]|1[0-9]{2}|2[0-4][0-9]|25[0-5]`. */
  predicate DecOctet(f: string)
  {
    (|f| == 1 && IsDigit(f[0]))
    || (|f| == 2 && '1' <= f[0] <= '9' && IsDigit(f[1]))
    || (|f| == 3 && f[0] == '1' && IsDigit(f[1]) && IsDigit(f[2]))
    || (|f| == 3 && f[0] == '2' && '0' <= f[1] <= '4' && IsDigit(f[2]))
    || (|f| == 3 && f[0] == '2' && f[1] == '5' && '0' <= f[2] <= '5')
  }

  /** `^(octet\.){3}octet$`: since an octet holds no '.', the match is four
      dot-separated fields, each an octet. */
  predicate IsIPv4Address(s: string)
  {
    var f := Split(s, '.');
    |f| == 4 && forall k :: 0 <= k < 4 ==> DecOctet(f[k])
  }

  /** An octet field is exactly the decimal text of a number up to 255. */
  lemma OctetMeaning(f: string)
    ensures DecOctet(f) <==> Canonical(f) && DigitsValue(f) <= 255
  {
    if 1 <= |f| <= 3 && AllDigits(f) {
      DigitsValueShort(f);
    } else if |f| > 3 && Canonical(f) {
      DigitsValueLowerBound(f);
    }
  }

  lemma {:induction false} DigitsValueLowerBound(f: string)
    requires Canonical(f) && |f| >= 4
    ensures DigitsValue(f) >= 1000
    decreases |f|
  {
    var p := f[..|f| - 1];
    assert p[0] == f[0];
    assert Canonical(p);
    if |p| >= 4 {
      DigitsValueLowerBound(p);
    } else {
      DigitsValueShort(p);
    }
  }

  function DottedQuad(a: nat, b: nat, c: nat, d: nat): string
  {
    Join([NatToString(a), NatToString(b), NatToString(c), NatToString(d)], '.')
  }

  /** Every dotted quad of values up to 255 is accepted. */
  lemma DottedQuadIsIPv4(a: nat, b: nat, c: nat, d: nat)
    requires a <= 255 && b <= 255 && c <= 255 && d <= 255
    ensures IsIPv4Address(DottedQuad(a, b, c, d))
  {
    var parts := [NatToString(a), NatToString(b), NatToString(c), NatToString(d)];
    forall k | 0 <= k < 4 ensures NoChar(parts[k], '.') && DecOctet(parts[k]) {
      var n := [a, b, c, d][k];
      assert parts[k] == NatToString(n);
      NatToStringCanonical(n);
      OctetMeaning(parts[k]);
    }
    SplitJoin(parts, '.');
  }

  /** And every accepted address is such a dotted quad. */
  lemma IPv4IsDottedQuad(s: string)
    requires IsIPv4Address(s)
    ensures exists a: nat, b: nat, c: nat, d: nat ::
      a <= 255 && b <= 255 && c <= 255 && d <= 255 && s == DottedQuad(a, b, c, d)
  {
    var f := Split(s, '.');
    forall k | 0 <= k < 4 ensures Canonical(f[k]) && DigitsValue(f[k]) <= 255 && NatToString(DigitsValue(f[k])) == f[k] {
      OctetMeaning(f[k]);
      CanonicalRoundTrip(f[k]);
    }
    JoinSplit(s, '.');
    assert f == [f[0], f[1], f[2], f[3]];
    var a, b, c, d := DigitsValue(f[0]), DigitsValue(f[1]), DigitsValue(f[2]), DigitsValue(f[3]);
    assert s == DottedQuad(a, b, c, d);
  }

  lemma IPv4Alphabet(s: string)
    requires IsIPv4Address(s)
    ensures forall i :: 0 <= i < |s| ==> IsDigit(s[i]) || s[i] == '.'
  {
    var f := Split(s, '.');
    JoinSplit(s, '.');
    Join4(f[0], f[1], f[2], f[3], '.');
    assert f == [f[0], f[1], f[2], f[3]];
  }

  // ---------------------------------------------------------------------
  // isIPv6Address

  /** `[0-9A-Fa-f]{1,4}`. */
  predicate Hex4(h: string)
  {
    1 <= |h| <= 4 && forall i :: 0 <= i < |h| ==> IsHexDigit(h[i])
  }

  /** What is left after `([0-9A-Fa-f]{1,4}:){n}`; the groups hold no ':', so
      their boundaries are the first n colons. */
  function LeadGroups(s: string, n: nat): Option<string>
    decreases n
  {
    if n == 0 then Some(s)
    else
      var i := IndexOfChar(s, ':');
      if i < 0 || !Hex4(s[..i]) then None else LeadGroups(s[i + 1..], n - 1)
  }

  /** `(:[0-9A-Fa-f]{1,4}){lo,hi}`. */
  predicate ColonGroups(r: string, lo: nat, hi: nat)
  {
    if r == [] then lo == 0
    else
      var f := Split(r[1..], ':');
      r[0] == ':' && lo <= |f| <= hi && forall k :: 0 <= k < |f| ==> Hex4(f[k])
  }

  /** `(:[0-9A-Fa-f]{1,4}){0,m}:` followed by a dotted quad; the quad holds no
      ':', so it starts after the last colon. */
  predicate ColonGroupsThenV4(r: string, m: nat)
  {
    var i := LastIndexOfChar(r, ':');
    i >= 0 && ColonGroups(r[..i], 0, m) && IsIPv4Address(r[i + 1..])
  }

  /** The part of the alternative `([0-9A-Fa-f]{1,4}:){n}(...)` after the
      leading groups. */
  predicate Tail(n: nat, r: string)
    requires n <= 7
  {
    if n == 7 then Hex4(r) || r == ":"
    else if n == 6 then ColonGroups(r, 1, 1) || IsIPv4Address(r) || r == ":"
    else ColonGroups(r, 1, 7 - n) || ColonGroupsThenV4(r, 5 - n) || r == ":"
  }

  predicate Alternative(c: string, n: nat)
    requires 1 <= n <= 7
  {
    var rest := LeadGroups(c, n);
    rest.Some? && Tail(n, rest.value)
  }

  /** The eight alternatives of the address part of the IPv6 expression. */
  predicate IPv6Core(c: string)
  {
    Alternative(c, 7) || Alternative(c, 6) || Alternative(c, 5) || Alternative(c, 4)
    || Alternative(c, 3) || Alternative(c, 2) || Alternative(c, 1)
    || (c != [] && c[0] == ':' && Tail(0, c[1..]))
  }

  predicate ZoneSplit(t: string, k: int)
  {
    2 <= k <= |t| && (forall i :: 1 <= i < k ==> !IsLineTerminator(t[i])) && AllJsSpace(t[k..])
  }

  /** `(%.+)?\s*$`. */
  predicate ZoneTail(t: string)
  {
    AllJsSpace(t) || (t != [] && t[0] == '%' && exists k :: 2 <= k <= |t| && ZoneSplit(t, k))
  }

  /** Length of the longest prefix holding neither '%' nor white space. */
  function CoreLength(r: string): (n: nat)
    ensures n <= |r|
    ensures forall i :: 0 <= i < n ==> r[i] != '%' && !IsJsSpace(r[i])
    ensures n < |r| ==> r[n] == '%' || IsJsSpace(r[n])
  {
    if r == [] || r[0] == '%' || IsJsSpace(r[0]) then 0 else 1 + CoreLength(r[1..])
  }

  /** `^\s*(alternatives)(%.+)?\s*$`. No alternative can start with white
      space, nor hold '%' or white space, so the address part is the
      longest such run after the leading white space. */
  predicate IsIPv6Address(s: string)
  {
    var r := DropLeadingSpace(s);
    var n := CoreLength(r);
    IPv6Core(r[..n]) && ZoneTail(r[n..])
  }

  lemma LeadGroupsNeedColon(s: string, n: nat)
    requires n >= 1 && LeadGroups(s, n).Some?
    ensures Contains(s, ':')
  {
    var i := IndexOfChar(s, ':');
    assert s[i] == ':';
  }

  lemma IPv6CoreHasColon(c: string)
    requires IPv6Core(c)
    ensures Contains(c, ':')
  {
    if c != [] && c[0] == ':' {
      assert c[0] == ':';
    } else if Alternative(c, 7) {
      LeadGroupsNeedColon(c, 7);
    } else if Alternative(c, 6) {
      LeadGroupsNeedColon(c, 6);
    } else if Alternative(c, 5) {
      LeadGroupsNeedColon(c, 5);
    } else if Alternative(c, 4) {
      LeadGroupsNeedColon(c, 4);
    } else if Alternative(c, 3) {
      LeadGroupsNeedColon(c, 3);
    } else if Alternative(c, 2) {
      LeadGroupsNeedColon(c, 2);
    } else {
      LeadGroupsNeedColon(c, 1);
    }
  }

  /** No address is both: every IPv6 form has a colon, no IPv4 one has. */
  lemma IPv4IsNotIPv6(s: string)
    requires IsIPv4Address(s)
    ensures !IsIPv6Address(s)
  {
    IPv4Alphabet(s);
    var r := DropLeadingSpace(s);
    assert r == s;
    var n := CoreLength(r);
    assert n == |s| by {
      if n < |s| { assert false; }
    }
    if IPv6Core(r[..n]) {
      IPv6CoreHasColon(r[..n]);
      assert false;
    }
  }

  /** The loopback address "::1" matches the last alternative. */
  lemma LoopbackIsIPv6()
    ensures IsIPv6Address("::1")
  {
    var s := "::1";
    assert DropLeadingSpace(s) == s;
    assert CoreLength(s) == 3;
    assert s[..3] == s && s[3..] == [];
    var r := s[1..];
    assert r == ":1";
    assert r[1..] == "1";
    SplitNoSeparator("1", ':');
    assert ColonGroups(r, 1, 7);
  }

  // ---------------------------------------------------------------------
  // getAddressType and isValidIPAddress

  /** IPv6 is tried first, then IPv4. */
  function GetAddressType(addr: string): (t: string)
    ensures t == "6" <==> IsIPv6Address(addr)
    ensures t == "unknown" <==> !IsIPv6Address(addr) && !IsIPv4Address(addr)
  {
    if IsIPv6Address(addr) then "6" else if IsIPv4Address(addr) then "4" else "unknown"
  }

  /** Because the two forms are disjoint, the order of the tests does not
      matter: an IPv4 address is always reported as "4". */
  lemma AddressTypeOfIPv4(addr: string)
    ensures GetAddressType(addr) == "4" <==> IsIPv4Address(addr)
  {
    if IsIPv4Address(addr) { IPv4IsNotIPv6(addr); }
  }

  predicate IsValidIPAddress(addr: string)
  {
    IsIPv6Address(addr) || IsIPv4Address(addr)
  }

  lemma ValidIffKnownType(addr: string)
    ensures IsValidIPAddress(addr) <==> GetAddressType(addr) != "unknown"
  {
  }

  lemma NoColonIsNotIPv6Core(c: string)
    requires NoChar(c, ':')
    ensures !IPv6Core(c)
  {
    if IPv6Core(c) { IPv6CoreHasColon(c); }
  }

  lemma EmptyIsNotAnAddress()
    ensures !IsValidIPAddress("")
  {
    assert Split("", '.') == [""];
    var r := DropLeadingSpace("");
    assert r == "";
    assert CoreLength(r) == 0;
    NoColonIsNotIPv6Core(r[..0]);
  }

  // ---------------------------------------------------------------------
  // IsValidKeyTag and IsValidDigest

  /** A JavaScript number: the outcome of `Number(text)`. */
  datatype JsNumber = NaN | Infinity(negative: bool) | Finite(value: real)

  /** `n % 1 === 0 && n >= 0 && n <= 65535`; `% 1` of NaN or an infinity is
      NaN, and of a finite number is 0 exactly when it is integral. */
  predicate KeyTagNumberOk(n: JsNumber)
  {
    n.Finite? && n.value.Floor as real == n.value && 0.0 <= n.value <= 65535.0
  }

  /** `IsValidKeyTag(kt)`; `number` stands for JavaScript's `Number()`. */
  predicate IsValidKeyTag(kt: string, number: string -> JsNumber)
  {
    KeyTagNumberOk(number(kt))
  }

  /** For a decimal key tag (which `Number` reads as its value), the browser
      accepts exactly 0 through 65535. */
  lemma DecimalKeyTag(n: nat, number: string -> JsNumber)
    requires number(NatToString(n)) == Finite(n as real)
    ensures IsValidKeyTag(NatToString(n), number) <==> n <= 65535
  {
  }

  /** `/^[a-zA-Z0-9 ]*$/.test(d) && d.length > 0`. */
  predicate IsValidDigest(d: string)
  {
    |d| > 0 && forall i :: 0 <= i < |d| ==> IsAlnum(d[i]) || d[i] == ' '
  }

  /** When the digest has been stripped of white space first, acceptance
      means a non-empty alphanumeric string. */
  lemma StrippedDigest(d: string)
    ensures IsValidDigest(StripSpace(d)) <==>
      |StripSpace(d)| > 0 && forall i :: 0 <= i < |StripSpace(d)| ==> IsAlnum(StripSpace(d)[i])
  {
    var r := StripSpace(d);
    forall i | 0 <= i < |r| ensures r[i] != ' ' { assert !IsJsSpace(r[i]); }
  }

  // ---------------------------------------------------------------------
  // parseInt(id) is NaN

  /** `isNaN(parseInt(s))`: after leading white space and an optional sign,
      no digit of the radix (16 after a "0x" prefix, 10 otherwise) follows. */
  predicate ParseIntIsNaN(s: string)
  {
    var t := DropLeadingSpace(s);
    var u := if t != [] && (t[0] == '+' || t[0] == '-') then t[1..] else t;
    if |u| >= 2 && u[0] == '0' && (u[1] == 'x' || u[1] == 'X') then !(|u| >= 3 && IsHexDigit(u[2]))
    else !(u != [] && IsDigit(u[0]))
  }

  lemma CanonicalIsANumber(s: string)
    requires Canonical(s)
    ensures !ParseIntIsNaN(s)
  {
    assert DropLeadingSpace(s) == s;
  }

  /** A decimal database id, as the dropdowns carry, always passes the
      controllers' integer check. */
  lemma DecimalIdIsANumber(n: nat)
    ensures !ParseIntIsNaN(NatToString(n))
  {
    NatToStringCanonical(n);
    CanonicalIsANumber(NatToString(n));
  }

  // ---------------------------------------------------------------------
  // Feedback under the entry boxes

  datatype Feedback = Feedback(text: string, good: bool)

  /** "v4" and "v6" select "4" and "6"; any other title selects nothing. */
  function SelectedProtoType(protoTitle: string): string
  {
    if protoTitle == "v4" then "4" else if protoTitle == "v6" then "6" else ""
  }

  /** host_entry_change_event's message for the address box and the
      selected protocol title. */
  function HostFeedback(addr: string, protoTitle: string): (f: Feedback)
    ensures f.good <==> addr == [] || (IsValidIPAddress(addr) && SelectedProtoType(protoTitle) == GetAddressType(addr))
    ensures f.text == [] <==> addr == []
    ensures IsValidIPAddress(addr) ==> HasPrefix(f.text, "&#x2714; - Valid IPv" + GetAddressType(addr) + " address")
  {
    EmptyIsNotAnAddress();
    if IsValidIPAddress(addr) then
      var t := GetAddressType(addr);
      var m := "&#x2714; - Valid IPv" + t + " address";
      if SelectedProtoType(protoTitle) == t then Feedback(m + " / &#x2714; Correct Protocol Type", true)
      else Feedback(m + " / &#x2718; Incorrect Protocol Type", false)
    else if |addr| != 0 then Feedback("&#x2718; - Invalid IP Address", false)
    else Feedback("", true)
  }

  /** ds_entry_change_event's message for the key-tag and digest boxes (the
      digest is checked as typed, without removing white space). */
  function DSFeedback(keyTag: string, digest: string, number: string -> JsNumber): (f: Feedback)
    ensures f.good <==> IsValidKeyTag(keyTag, number) && IsValidDigest(digest)
    ensures HasPrefix(f.text, if IsValidKeyTag(keyTag, number) then "&#x2714; Valid Key Tag"
                              else "&#x2718; Invalid Key Tag, must be between 0 and 65535")
  {
    var first := if IsValidKeyTag(keyTag, number) then "&#x2714; Valid Key Tag"
                 else "&#x2718; Invalid Key Tag, must be between 0 and 65535";
    var second := if IsValidDigest(digest) then " / &#x2714; Valid Digest" else " / &#x2718; Invalid Digest";
    assert (first + second)[..|first|] == first;
    Feedback(first + second, IsValidKeyTag(keyTag, number) && IsValidDigest(digest))
  }

  // ---------------------------------------------------------------------
  // Row identities and values

  datatype Row = Row(title: string, hidden: Option<string>)

  /** Which list element a row was appended to. */
  datatype ListName = HostAddressList | DnssecList | HostnameList | ApproverSetList(kind: string) | ApproverList

  /** "host_address_" + title + "-" + address with '.' as 'G' and ':' as 'S'. */
  function HostRowId(protoTitle: string, ip: string): string
  {
    "host_address_" + protoTitle + "-" + ReplaceChar(ReplaceChar(ip, '.', 'G'), ':', 'S')
  }

  function HostValue(protoTitle: string, ip: string): string { protoTitle + "-" + ip }

  function HostTitle(ip: string, protoTitle: string): string { ip + " - IP" + protoTitle }

  function DSValue(keyTag: string, alg: string, digestType: string, digest: string): string
  {
    keyTag + ":" + alg + ":" + digestType + ":" + digest
  }

  function DSRowId(value: string): string { ReplaceChar(value, ':', '-') }

  function ApproverSetPrefix(kind: string): string
  {
    if kind == "required" then "approver_set_required_" else "approver_set_informed_"
  }

  predicate IsApproverSetKind(kind: string) { kind == "required" || kind == "informed" }

  // ---------------------------------------------------------------------
  // The row operations every controller is made of

  /** Strike the row through and drop its hidden input; the title stays. */
  function SoftRemove(rows: map<string, Row>, id: string): (r: map<string, Row>)
    ensures r.Keys == rows.Keys
    ensures id in rows ==> r[id] == Row(rows[id].title, None)
    ensures forall k :: k in rows && k != id ==> r[k] == rows[k]
  {
    if id in rows then rows[id := Row(rows[id].title, None)] else rows
  }

  /** Rebuild an existing row with the given title and hidden value. */
  function Restore(rows: map<string, Row>, id: string, title: string, value: string): (r: map<string, Row>)
    ensures r.Keys == rows.Keys
    ensures id in rows ==> r[id] == Row(title, Some(value))
    ensures forall k :: k in rows && k != id ==> r[k] == rows[k]
  {
    if id in rows then rows[id := Row(title, Some(value))] else rows
  }

  /** Rebuild an existing row with its current title and the given value. */
  function RestoreKeepTitle(rows: map<string, Row>, id: string, value: string): (r: map<string, Row>)
    ensures r.Keys == rows.Keys
    ensures id in rows ==> r[id] == Row(rows[id].title, Some(value))
    ensures forall k :: k in rows && k != id ==> r[k] == rows[k]
  {
    if id in rows then rows[id := Row(rows[id].title, Some(value))] else rows
  }

  /** Append a fresh row, or rebuild the existing one. */
  function AddOrRestore(rows: map<string, Row>, id: string, title: string, value: string): (r: map<string, Row>)
    ensures r.Keys == rows.Keys + {id}
    ensures r[id] == Row(title, Some(value))
    ensures forall k :: k in rows && k != id ==> r[k] == rows[k]
  {
    rows[id := Row(title, Some(value))]
  }

  function Appended(lists: map<ListName, seq<string>>, l: ListName, id: string): map<ListName, seq<string>>
  {
    lists[l := (if l in lists then lists[l] else []) + [id]]
  }

  /** Soft removal followed by restoring the same title and value gives back
      the row exactly as it was. */
  lemma RemoveThenRestore(rows: map<string, Row>, id: string)
    requires id in rows && rows[id].hidden.Some?
    ensures Restore(SoftRemove(rows, id), id, rows[id].title, rows[id].hidden.value) == rows
    ensures RestoreKeepTitle(SoftRemove(rows, id), id, rows[id].hidden.value) == rows
  {
    var r := SoftRemove(rows, id);
    assert Restore(r, id, rows[id].title, rows[id].hidden.value) == rows[id := rows[id]];
  }

  /** The host identity carries the address in a form with no '.' and no
      ':', so it is usable as an element id. */
  lemma HostRowIdAlphabet(protoTitle: string, ip: string)
    ensures NoChar(ReplaceChar(ReplaceChar(ip, '.', 'G'), ':', 'S'), '.')
    ensures NoChar(ReplaceChar(ReplaceChar(ip, '.', 'G'), ':', 'S'), ':')
  {
  }

  // ---------------------------------------------------------------------
  // The page

  class Page {
    var rows: map<string, Row>
    var lists: map<ListName, seq<string>>
    var addressInput: string
    var keyTagInput: string
    var digestInput: string
    var hostMessage: Feedback
    var dsMessage: Feedback

    /** Every listed id is a row, and no list names a row twice. */
    ghost predicate Valid()
      reads this`rows, this`lists
    {
      forall l, i :: l in lists && 0 <= i < |lists[l]| ==>
        lists[l][i] in rows && forall j :: 0 <= j < i ==> lists[l][j] != lists[l][i]
    }

    constructor ()
      ensures Valid() && rows == map[] && lists == map[]
      ensures addressInput == "" && keyTagInput == "" && digestInput == ""
      ensures hostMessage == Feedback("", true) && dsMessage == Feedback("", true)
    {
      rows, lists := map[], map[];
      addressInput, keyTagInput, digestInput := "", "", "";
      hostMessage, dsMessage := Feedback("", true), Feedback("", true);
    }

    method Append(l: ListName, id: string, row: Row)
      requires Valid() && id !in rows
      modifies this`rows, this`lists
      ensures Valid()
      ensures rows == old(rows)[id := row] && lists == Appended(old(lists), l, id)
    {
      rows := rows[id := row];
      lists := Appended(lists, l, id);
    }

    // --- host addresses ---------------------------------------------------

    /** host_entry_change_event. */
    method HostEntryChangeEvent(protoTitle: string)
      modifies this`hostMessage
      ensures hostMessage == HostFeedback(addressInput, protoTitle)
    {
      hostMessage := HostFeedback(addressInput, protoTitle);
    }

    /** push_host_address: `protoValue` is the protocol selector's value and
        `protoTitle` the text of its selected option. */
    method PushHostAddress(protoValue: string, protoTitle: string)
      requires Valid()
      modifies this`rows, this`lists, this`addressInput, this`hostMessage
      ensures Valid()
      ensures !(protoValue == "4" || protoValue == "6") || !IsValidIPAddress(old(addressInput)) ==>
        rows == old(rows) && lists == old(lists) && addressInput == old(addressInput) && hostMessage == old(hostMessage)
      ensures (protoValue == "4" || protoValue == "6") && IsValidIPAddress(old(addressInput)) ==>
        var ip := old(addressInput);
        var id := HostRowId(protoTitle, ip);
        rows == AddOrRestore(old(rows), id, HostTitle(ip, protoTitle), HostValue(protoTitle, ip))
        && lists == (if id in old(rows) then old(lists) else Appended(old(lists), HostAddressList, id))
        && addressInput == "" && hostMessage == Feedback("", true)
    {
      var ip := addressInput;
      var accepted := (protoValue == "4" || protoValue == "6") && IsValidIPAddress(ip);
      if accepted {
        AddHostRow(HostRowId(protoTitle, ip), ip, protoTitle);
        addressInput := "";
        HostEntryChangeEvent(protoTitle);
        assert hostMessage == HostFeedback("", protoTitle);
      }
    }

    /** The row step of push_host_address: a new address is appended to the
        list, a removed one is restored in place. */
    method AddHostRow(id: string, ip: string, protoTitle: string)
      requires Valid()
      modifies this`rows, this`lists
      ensures Valid()
      ensures rows == AddOrRestore(old(rows), id, HostTitle(ip, protoTitle), HostValue(protoTitle, ip))
      ensures lists == (if id in old(rows) then old(lists) else Appended(old(lists), HostAddressList, id))
    {
      if id !in rows {
        Append(HostAddressList, id, Row(HostTitle(ip, protoTitle), Some(HostValue(protoTitle, ip))));
      } else {
        ReaddHostAddress(id, ip, protoTitle);
      }
    }

    /** remove_host_addres. */
    method RemoveHostAddress(id: string, ip: string, protoTitle: string)
      requires Valid()
      modifies this`rows
      ensures Valid() && rows == SoftRemove(old(rows), id)
    {
      if id in rows {
        var title := rows[id].title;
        rows := rows[id := Row(title, None)];
      }
    }

    /** readd_host_address: the title is rebuilt from the address. */
    method ReaddHostAddress(id: string, ip: string, protoTitle: string)
      requires Valid()
      modifies this`rows
      ensures Valid() && rows == Restore(old(rows), id, HostTitle(ip, protoTitle), HostValue(protoTitle, ip))
    {
      if id in rows {
        rows := rows[id := Row(HostTitle(ip, protoTitle), Some(HostValue(protoTitle, ip)))];
      }
    }

    // --- DS entries -------------------------------------------------------

    /** ds_entry_change_event. */
    method DSEntryChangeEvent(number: string -> JsNumber)
      modifies this`dsMessage
      ensures dsMessage == DSFeedback(keyTagInput, digestInput, number)
    {
      dsMessage := DSFeedback(keyTagInput, digestInput, number);
    }

    /** push_ds_entry as written: for an entry already on the page it calls
        readd_ds_entry with the key tag in the place of the entry's value. */
    method PushDSEntryAsWritten(alg: string, digestType: string, number: string -> JsNumber)
      requires Valid()
      modifies this`rows, this`lists, this`keyTagInput, this`digestInput
      ensures Valid()
      ensures var kt, dg := old(keyTagInput), StripSpace(old(digestInput));
        var value := DSValue(kt, alg, digestType, dg);
        var id := DSRowId(value);
        if IsValidKeyTag(kt, number) && IsValidDigest(dg) then
          (if id in old(rows) then rows == Restore(old(rows), id, kt, kt) && lists == old(lists)
           else rows == old(rows)[id := Row(value, Some(value))] && lists == Appended(old(lists), DnssecList, id))
          && keyTagInput == "" && digestInput == ""
        else rows == old(rows) && lists == old(lists) && keyTagInput == old(keyTagInput) && digestInput == old(digestInput)
    {
      var keyTag := keyTagInput;
      var digest := StripSpace(digestInput);
      if IsValidKeyTag(keyTag, number) && IsValidDigest(digest) {
        var value := DSValue(keyTag, alg, digestType, digest);
        var id := DSRowId(value);
        if id !in rows {
          Append(DnssecList, id, Row(value, Some(value)));
        } else {
          // readd_ds_entry(id, key_tag, algorithm, digest_type, digest)
          ReaddDSEntry(id, keyTag, alg, digestType, digest, "");
        }
        keyTagInput := "";
        digestInput := "";
      }
    }

    /** push_ds_entry with the entry's value passed to readd_ds_entry. */
    method PushDSEntry(alg: string, digestType: string, number: string -> JsNumber)
      requires Valid()
      modifies this`rows, this`lists, this`keyTagInput, this`digestInput
      ensures Valid()
      ensures var kt, dg := old(keyTagInput), StripSpace(old(digestInput));
        var value := DSValue(kt, alg, digestType, dg);
        var id := DSRowId(value);
        if IsValidKeyTag(kt, number) && IsValidDigest(dg) then
          rows == AddOrRestore(old(rows), id, value, value)
          && lists == (if id in old(rows) then old(lists) else Appended(old(lists), DnssecList, id))
          && keyTagInput == "" && digestInput == ""
        else rows == old(rows) && lists == old(lists) && keyTagInput == old(keyTagInput) && digestInput == old(digestInput)
    {
      var keyTag := keyTagInput;
      var digest := StripSpace(digestInput);
      if IsValidKeyTag(keyTag, number) && IsValidDigest(digest) {
        var value := DSValue(keyTag, alg, digestType, digest);
        var id := DSRowId(value);
        if id !in rows {
          Append(DnssecList, id, Row(value, Some(value)));
        } else {
          ReaddDSEntry(id, value, keyTag, alg, digestType, digest);
        }
        keyTagInput := "";
        digestInput := "";
      }
    }

    /** remove_ds_entry. */
    method RemoveDSEntry(id: string, value: string, keyTag: string, alg: string, digestType: string, digest: string)
      requires Valid()
      modifies this`rows
      ensures Valid() && rows == SoftRemove(old(rows), id)
    {
      if id in rows {
        var title := rows[id].title;
        rows := rows[id := Row(title, None)];
      }
    }

    /** readd_ds_entry: title and hidden value are both `value`. */
    method ReaddDSEntry(id: string, value: string, keyTag: string, alg: string, digestType: string, digest: string)
      requires Valid()
      modifies this`rows
      ensures Valid() && rows == Restore(old(rows), id, value, value)
    {
      if id in rows {
        rows := rows[id := Row(value, Some(value))];
      }
    }

    // --- hostnames --------------------------------------------------------

    /** push_hostname: `id` is the dropdown's value, `title` its text. */
    method PushHostname(id: string, title: string)
      requires Valid()
      modifies this`rows, this`lists
      ensures Valid()
      ensures id == "none" || ParseIntIsNaN(id) ==> rows == old(rows) && lists == old(lists)
      ensures id != "none" && !ParseIntIsNaN(id) ==>
        var rid := "hostname_" + id;
        if rid in old(rows) then rows == RestoreKeepTitle(old(rows), rid, id) && lists == old(lists)
        else rows == old(rows)[rid := Row(title, Some(id))] && lists == Appended(old(lists), HostnameList, rid)
    {
      if id != "none" {
        if ParseIntIsNaN(id) {
          return;
        }
        var rid := "hostname_" + id;
        if rid !in rows {
          Append(HostnameList, rid, Row(title, Some(id)));
        } else {
          ReaddHostname(id);
        }
      }
    }

    /** remove_hostname. */
    method RemoveHostname(id: string)
      requires Valid()
      modifies this`rows
      ensures Valid()
      ensures rows == if ParseIntIsNaN(id) then old(rows) else SoftRemove(old(rows), "hostname_" + id)
    {
      if ParseIntIsNaN(id) {
        return;
      }
      var rid := "hostname_" + id;
      if rid in rows {
        var title := rows[rid].title;
        rows := rows[rid := Row(title, None)];
      }
    }

    /** readd_hostname: the title shown is kept. */
    method ReaddHostname(id: string)
      requires Valid()
      modifies this`rows
      ensures Valid()
      ensures rows == if ParseIntIsNaN(id) then old(rows) else RestoreKeepTitle(old(rows), "hostname_" + id, id)
    {
      if ParseIntIsNaN(id) {
        return;
      }
      var rid := "hostname_" + id;
      if rid in rows {
        var title := rows[rid].title;
        rows := rows[rid := Row(title, Some(id))];
      }
    }

    // --- approver sets ----------------------------------------------------

    /** push_approver_set(kind): `id` and `title` come from the kind's
        dropdown. */
    method PushApproverSet(kind: string, id: string, title: string)
      requires Valid()
      modifies this`rows, this`lists
      ensures Valid()
      ensures !IsApproverSetKind(kind) || id == "none" || ParseIntIsNaN(id) ==> rows == old(rows) && lists == old(lists)
      ensures IsApproverSetKind(kind) && id != "none" && !ParseIntIsNaN(id) ==>
        var rid := ApproverSetPrefix(kind) + id;
        if rid in old(rows) then rows == RestoreKeepTitle(old(rows), rid, id) && lists == old(lists)
        else rows == old(rows)[rid := Row(title, Some(id))] && lists == Appended(old(lists), ApproverSetList(kind), rid)
    {
      if kind == "required" || kind == "informed" {
        var prefix := ApproverSetPrefix(kind);
        if id != "none" {
          if ParseIntIsNaN(id) {
            return;
          }
          var rid := prefix + id;
          if rid !in rows {
            Append(ApproverSetList(kind), rid, Row(title, Some(id)));
          } else {
            ReaddApproverSet(kind, id);
          }
        }
      }
    }

    /** remove_approver_set: the id is checked before the kind. */
    method RemoveApproverSet(kind: string, id: string)
      requires Valid()
      modifies this`rows
      ensures Valid()
      ensures rows == if ParseIntIsNaN(id) || !IsApproverSetKind(kind) then old(rows)
                      else SoftRemove(old(rows), ApproverSetPrefix(kind) + id)
    {
      if ParseIntIsNaN(id) {
        return;
      }
      if kind == "required" || kind == "informed" {
        var rid := ApproverSetPrefix(kind) + id;
        if rid in rows {
          var title := rows[rid].title;
          rows := rows[rid := Row(title, None)];
        }
      }
    }

    /** readd_approver_set. */
    method ReaddApproverSet(kind: string, id: string)
      requires Valid()
      modifies this`rows
      ensures Valid()
      ensures rows == if ParseIntIsNaN(id) || !IsApproverSetKind(kind) then old(rows)
                      else RestoreKeepTitle(old(rows), ApproverSetPrefix(kind) + id, id)
    {
      if ParseIntIsNaN(id) {
        return;
      }
      if kind == "required" || kind == "informed" {
        var rid := ApproverSetPrefix(kind) + id;
        if rid in rows {
          var title := rows[rid].title;
          rows := rows[rid := Row(title, Some(id))];
        }
      }
    }

    // --- approvers --------------------------------------------------------

    /** push_approver. */
    method PushApprover(id: string, title: string)
      requires Valid()
      modifies this`rows, this`lists
      ensures Valid()
      ensures id == "none" || ParseIntIsNaN(id) ==> rows == old(rows) && lists == old(lists)
      ensures id != "none" && !ParseIntIsNaN(id) ==>
        var rid := "approver_" + id;
        if rid in old(rows) then rows == RestoreKeepTitle(old(rows), rid, id) && lists == old(lists)
        else rows == old(rows)[rid := Row(title, Some(id))] && lists == Appended(old(lists), ApproverList, rid)
    {
      if id != "none" {
        if ParseIntIsNaN(id) {
          return;
        }
        var rid := "approver_" + id;
        if rid !in rows {
          Append(ApproverList, rid, Row(title, Some(id)));
        } else {
          ReaddApprover(id);
        }
      }
    }

    /** remove_approver. */
    method RemoveApprover(id: string)
      requires Valid()
      modifies this`rows
      ensures Valid()
      ensures rows == if ParseIntIsNaN(id) then old(rows) else SoftRemove(old(rows), "approver_" + id)
    {
      if ParseIntIsNaN(id) {
        return;
      }
      var rid := "approver_" + id;
      if rid in rows {
        var title := rows[rid].title;
        rows := rows[rid := Row(title, None)];
      }
    }

    /** readd_approver. */
    method ReaddApprover(id: string)
      requires Valid()
      modifies this`rows
      ensures Valid()
      ensures rows == if ParseIntIsNaN(id) then old(rows) else RestoreKeepTitle(old(rows), "approver_" + id, id)
    {
      if ParseIntIsNaN(id) {
        return;
      }
      var rid := "approver_" + id;
      if rid in rows {
        var title := rows[rid].title;
        rows := rows[rid := Row(title, Some(id))];
      }
    }
  }

  // ---------------------------------------------------------------------
  // Push, remove, undo

  /** The rows after push_host_address adds a valid address. */
  function HostPushed(rows: map<string, Row>, protoTitle: string, ip: string): map<string, Row>
  {
    AddOrRestore(rows, HostRowId(protoTitle, ip), HostTitle(ip, protoTitle), HostValue(protoTitle, ip))
  }

  /** Push, remove and undo leave the host row with the title and submitted
      value of the push; pushing again after a removal does the same. */
  lemma HostPushRemoveReadd(rows: map<string, Row>, protoTitle: string, ip: string)
    ensures var id := HostRowId(protoTitle, ip);
      var pushed := HostPushed(rows, protoTitle, ip);
      var removed := SoftRemove(pushed, id);
      removed[id].title == pushed[id].title && removed[id].hidden == None
      && Restore(removed, id, HostTitle(ip, protoTitle), HostValue(protoTitle, ip)) == pushed
      && HostPushed(removed, protoTitle, ip) == pushed
  {
    var id := HostRowId(protoTitle, ip);
    var pushed := HostPushed(rows, protoTitle, ip);
    RemoveThenRestore(pushed, id);
    assert HostPushed(SoftRemove(pushed, id), protoTitle, ip) == pushed[id := pushed[id]];
  }

  /** The rows after push_ds_entry as written adds a valid entry. */
  function DSPushedAsWritten(rows: map<string, Row>, keyTag: string, alg: string, digestType: string, digest: string): map<string, Row>
  {
    var value := DSValue(keyTag, alg, digestType, digest);
    var id := DSRowId(value);
    if id in rows then Restore(rows, id, keyTag, keyTag) else rows[id := Row(value, Some(value))]
  }

  /** The rows after the corrected push_ds_entry adds a valid entry. */
  function DSPushed(rows: map<string, Row>, keyTag: string, alg: string, digestType: string, digest: string): map<string, Row>
  {
    var value := DSValue(keyTag, alg, digestType, digest);
    AddOrRestore(rows, DSRowId(value), value, value)
  }

  /** As written: pushing a DS entry that was removed brings its row back
      with the key tag alone as title and submitted value, which the server
      cannot parse as a DS record. */
  lemma DSRepushAsWrittenLosesEntry(rows: map<string, Row>, keyTag: string, alg: string, digestType: string, digest: string)
    ensures var value := DSValue(keyTag, alg, digestType, digest);
      var id := DSRowId(value);
      var again := DSPushedAsWritten(SoftRemove(DSPushedAsWritten(rows, keyTag, alg, digestType, digest), id), keyTag, alg, digestType, digest);
      again[id] == Row(keyTag, Some(keyTag)) && again[id].hidden != Some(value)
  {
    var value := DSValue(keyTag, alg, digestType, digest);
    assert |value| > |keyTag|;
  }

  /** Corrected: pushing a removed DS entry again restores it exactly, and so
      does undo. */
  lemma DSRepushRestores(rows: map<string, Row>, keyTag: string, alg: string, digestType: string, digest: string)
    ensures var value := DSValue(keyTag, alg, digestType, digest);
      var id := DSRowId(value);
      var pushed := DSPushed(rows, keyTag, alg, digestType, digest);
      var removed := SoftRemove(pushed, id);
      DSPushed(removed, keyTag, alg, digestType, digest) == pushed
      && Restore(removed, id, value, value) == pushed
      && removed[id] == Row(value, None)
  {
    var value := DSValue(keyTag, alg, digestType, digest);
    var id := DSRowId(value);
    var pushed := DSPushed(rows, keyTag, alg, digestType, digest);
    RemoveThenRestore(pushed, id);
    assert DSPushed(SoftRemove(pushed, id), keyTag, alg, digestType, digest) == pushed[id := pushed[id]];
  }

  /** Removing then undoing a hostname, approver-set or approver row gives
      back the pushed row: its title stays and its hidden value is the id. */
  lemma IdRowPushRemoveReadd(rows: map<string, Row>, rid: string, id: string, title: string)
    requires rid !in rows
    ensures var pushed := rows[rid := Row(title, Some(id))];
      RestoreKeepTitle(SoftRemove(pushed, rid), rid, id) == pushed
      && SoftRemove(pushed, rid)[rid] == Row(title, None)
  {
    var pushed := rows[rid := Row(title, Some(id))];
    RemoveThenRestore(pushed, rid);
  }
}
