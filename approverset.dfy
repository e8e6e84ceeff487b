// Approver sets: parsing a list of approver set IDs from a form, the short
// export form, comparing ID lists, and the state change UpdateState makes.
// The key ring part of an approver set is in module Keyring.

module ApproverSet {
  import opened Common
  import opened RegistrarObject

  /** The fields of an approver set the operations here read. CreatedAt is
      a timestamp, abstracted to a number. */
  datatype ApproverSetRecord = ApproverSetRecord(id: int, state: string, createdAt: int, createdBy: string)

  datatype ApproverSetExportShort = ApproverSetExportShort(id: int, state: string, createdAt: int, createdBy: string)

  /** GetDefaultApproverSet always loads the set with ID 1. */
  const DefaultApproverSetID := 1

  // ParseApproverSets

  /** The state the token loop carries: the map from ID to the set loaded
      for it (None where the load failed) and the two error listings. */
  datatype ScanState = ScanState(found: map<int, Option<ApproverSetRecord>>, unparsable: string, invalid: string)

  /** Before the loop: the default set under its ID when it is required and
      loads, and its load error otherwise. */
  function InitialScan(requireAppSet1: bool, defaultSet: Result<ApproverSetRecord>): ScanState
  {
    if !requireAppSet1 then ScanState(map[], "", "")
    else if defaultSet.Ok? then ScanState(map[defaultSet.value.id := Some(defaultSet.value)], "", "")
    else ScanState(map[], "", " (DefaultApproverSet: " + defaultSet.msg + ")")
  }

  /** One token: an unparsable one is listed, an ID already in the map is
      skipped, and any other ID is looked up once. */
  function ScanToken(st: ScanState, raw: string, lookup: int -> Result<ApproverSetRecord>): ScanState
  {
    match ParseInt(raw)
    case None => st.(unparsable := st.unparsable + " " + raw)
    case Some(id) =>
      if id in st.found then st
      else if lookup(id).Ok? then st.(found := st.found[id := Some(lookup(id).value)])
      else st.(found := st.found[id := None],
               invalid := st.invalid + " (" + IntToString(id) + ": " + lookup(id).msg + ")")
  }

  function Scan(st: ScanState, tokens: seq<string>, lookup: int -> Result<ApproverSetRecord>): ScanState
  {
    if tokens == [] then st
    else ScanToken(Scan(st, tokens[..|tokens| - 1], lookup), tokens[|tokens| - 1], lookup)
  }

  /** The error ParseApproverSets returns for the state the loop ends in. */
  function ErrorText(htmlID: string, st: ScanState): Option<string>
  {
    var parsed := if st.unparsable != "" then "" + " These IDs did not parse: " + st.unparsable else "";
    var errorStr := if st.invalid != "" then parsed + " These IDs failed to load: " + st.invalid else parsed;
    if errorStr != "" then Some("ParseApproverSets failed for " + htmlID + ": " + errorStr) else None
  }

  predicate AllParse(tokens: seq<string>)
  {
    forall i :: 0 <= i < |tokens| ==> ParseInt(tokens[i]).Some?
  }

  /** The IDs the parsable tokens name. */
  function ParsedIDs(tokens: seq<string>): set<int>
  {
    if tokens == [] then {}
    else
      var p := ParseInt(tokens[|tokens| - 1]);
      ParsedIDs(tokens[..|tokens| - 1]) + (if p.Some? then {p.value} else {})
  }

  /** The IDs a successful parse returns sets for. */
  function RequestedIDs(values: seq<string>, requireAppSet1: bool): set<int>
  {
    ParsedIDs(FormTokens(values)) + (if requireAppSet1 then {DefaultApproverSetID} else {})
  }

  /** Where the set with a given ID comes from: the default-set lookup for
      ID 1 when it is required, the database lookup otherwise. */
  function Source(id: int, requireAppSet1: bool, defaultSet: Result<ApproverSetRecord>,
                  lookup: int -> Result<ApproverSetRecord>): Result<ApproverSetRecord>
  {
    if requireAppSet1 && id == DefaultApproverSetID then defaultSet else lookup(id)
  }

  /** When ParseApproverSets succeeds: every token parses, the default set
      loads when it is required, and every other requested ID loads. */
  predicate ParsesCleanly(values: seq<string>, requireAppSet1: bool, defaultSet: Result<ApproverSetRecord>,
                          lookup: int -> Result<ApproverSetRecord>)
  {
    var tokens := FormTokens(values);
    AllParse(tokens) &&
    (requireAppSet1 ==> defaultSet.Ok?) &&
    forall id :: id in ParsedIDs(tokens) ==> Source(id, requireAppSet1, defaultSet, lookup).Ok?
  }

  /** A database lookup by ID returns the record with that ID. */
  ghost predicate LookupByID(defaultSet: Result<ApproverSetRecord>, lookup: int -> Result<ApproverSetRecord>)
  {
    (defaultSet.Ok? ==> defaultSet.value.id == DefaultApproverSetID) &&
    forall id :: lookup(id).Ok? ==> lookup(id).value.id == id
  }

  function Entry(r: Result<ApproverSetRecord>): Option<ApproverSetRecord>
  {
    if r.Ok? then Some(r.value) else None
  }

  predicate Settled(found: map<int, Option<ApproverSetRecord>>)
  {
    forall id :: id in found ==> found[id].Some?
  }

  /** Whether a token's lookup is the one that fails. */
  predicate LoadFails(st: ScanState, raw: string, lookup: int -> Result<ApproverSetRecord>)
  {
    ParseInt(raw).Some? && ParseInt(raw).value !in st.found && lookup(ParseInt(raw).value).Err?
  }

  /** What one token does to the four facts ScanFacts tracks. */
  lemma ScanTokenFacts(st: ScanState, raw: string, lookup: int -> Result<ApproverSetRecord>)
    ensures var s := ScanToken(st, raw, lookup);
      s.found.Keys == st.found.Keys + (if ParseInt(raw).Some? then {ParseInt(raw).value} else {}) &&
      (forall id :: id in s.found ==> s.found[id] == (if id in st.found then st.found[id] else Entry(lookup(id)))) &&
      (s.unparsable == "" <==> st.unparsable == "" && ParseInt(raw).Some?) &&
      (s.invalid == "" <==> st.invalid == "" && !LoadFails(st, raw, lookup)) &&
      (Settled(s.found) <==> Settled(st.found) && !LoadFails(st, raw, lookup))
  {
  }

  lemma AllParseSnoc(tokens: seq<string>)
    requires tokens != []
    ensures AllParse(tokens) <==> AllParse(tokens[..|tokens| - 1]) && ParseInt(tokens[|tokens| - 1]).Some?
  {
    var init := tokens[..|tokens| - 1];
    if AllParse(init) && ParseInt(tokens[|tokens| - 1]).Some? {
      forall i | 0 <= i < |tokens|
        ensures ParseInt(tokens[i]).Some?
      {
        if i < |init| {
          assert tokens[i] == init[i];
        }
      }
    }
  }

  /** What the token loop computes, from any start with no failed entry:
      the keys are the start's plus the parsed IDs, every new key holds the
      result of its lookup, and each listing stays empty exactly when its
      kind of failure did not happen. */
  lemma {:induction false} ScanFacts(st: ScanState, tokens: seq<string>, lookup: int -> Result<ApproverSetRecord>)
    requires Settled(st.found)
    ensures var s := Scan(st, tokens, lookup);
      s.found.Keys == st.found.Keys + ParsedIDs(tokens) &&
      (forall id :: id in s.found ==> s.found[id] == (if id in st.found then st.found[id] else Entry(lookup(id)))) &&
      (s.unparsable == "" <==> st.unparsable == "" && AllParse(tokens)) &&
      (s.invalid == "" <==> st.invalid == "" && Settled(s.found))
  {
    if tokens != [] {
      var init := tokens[..|tokens| - 1];
      var raw := tokens[|tokens| - 1];
      ScanFacts(st, init, lookup);
      var mid := Scan(st, init, lookup);
      ScanTokenFacts(mid, raw, lookup);
      AllParseSnoc(tokens);
      assert Scan(st, tokens, lookup) == ScanToken(mid, raw, lookup);
    }
  }

  /** The whole outcome of the token loop in terms of the inputs. */
  lemma ScanOutcome(htmlID: string, values: seq<string>, requireAppSet1: bool,
                    defaultSet: Result<ApproverSetRecord>, lookup: int -> Result<ApproverSetRecord>)
    requires LookupByID(defaultSet, lookup)
    ensures var s := Scan(InitialScan(requireAppSet1, defaultSet), FormTokens(values), lookup);
      (ErrorText(htmlID, s).None? <==> ParsesCleanly(values, requireAppSet1, defaultSet, lookup)) &&
      (ErrorText(htmlID, s).None? ==>
        s.found.Keys == RequestedIDs(values, requireAppSet1) &&
        forall id :: id in s.found ==> s.found[id] == Entry(Source(id, requireAppSet1, defaultSet, lookup)))
  {
    var st := InitialScan(requireAppSet1, defaultSet);
    var tokens := FormTokens(values);
    ScanFacts(st, tokens, lookup);
    var s := Scan(st, tokens, lookup);
    if ErrorText(htmlID, s).None? {
      assert s.unparsable == "" && s.invalid == "";
      forall id | id in ParsedIDs(tokens)
        ensures Source(id, requireAppSet1, defaultSet, lookup).Ok?
      {
        assert id in s.found;
      }
    }
    if ParsesCleanly(values, requireAppSet1, defaultSet, lookup) {
      forall id | id in s.found
        ensures s.found[id].Some?
      {
        if id !in st.found {
          assert id in ParsedIDs(tokens);
        }
      }
    }
  }

  predicate StrictlyAscending(sets: seq<ApproverSetRecord>)
  {
    forall i, j :: 0 <= i < j < |sets| ==> sets[i].id < sets[j].id
  }

  predicate DistinctIDs(sets: seq<ApproverSetRecord>)
  {
    forall i, j :: 0 <= i < j < |sets| ==> sets[i].id != sets[j].id
  }

  /** Insertion of one set into a list ordered by ID. */
  function InsertByID(sorted: seq<ApproverSetRecord>, x: ApproverSetRecord): seq<ApproverSetRecord>
  {
    if sorted == [] then [x]
    else if x.id < sorted[0].id then [x] + sorted
    else [sorted[0]] + InsertByID(sorted[1..], x)
  }

  lemma {:induction false} InsertByIDMembers(sorted: seq<ApproverSetRecord>, x: ApproverSetRecord)
    ensures multiset(InsertByID(sorted, x)) == multiset(sorted) + multiset{x}
    ensures forall r :: r in InsertByID(sorted, x) <==> r in sorted || r == x
  {
    if sorted != [] && x.id >= sorted[0].id {
      InsertByIDMembers(sorted[1..], x);
      assert sorted == [sorted[0]] + sorted[1..];
    }
  }

  lemma {:induction false} InsertByIDSorted(sorted: seq<ApproverSetRecord>, x: ApproverSetRecord)
    requires StrictlyAscending(sorted)
    requires forall i :: 0 <= i < |sorted| ==> sorted[i].id != x.id
    ensures StrictlyAscending(InsertByID(sorted, x))
  {
    if sorted != [] && x.id >= sorted[0].id {
      var rest := sorted[1..];
      assert forall i :: 0 <= i < |rest| ==> rest[i] == sorted[i + 1];
      InsertByIDSorted(rest, x);
      InsertByIDMembers(rest, x);
      var ins := InsertByID(rest, x);
      forall j | 0 <= j < |ins|
        ensures sorted[0].id < ins[j].id
      {
        assert ins[j] in rest || ins[j] == x;
      }
      assert InsertByID(sorted, x) == [sorted[0]] + ins;
    }
  }

  /** sort.Sort over approverSetsByID, whose Less compares IDs. The IDs
      are distinct, so the order is strict and the result is the one
      permutation of the input that is ordered. */
  method SortByID(xs: seq<ApproverSetRecord>) returns (ys: seq<ApproverSetRecord>)
    requires DistinctIDs(xs)
    ensures StrictlyAscending(ys)
    ensures multiset(ys) == multiset(xs)
    ensures forall r :: r in ys <==> r in xs
  {
    ys := [];
    var i := 0;
    while i < |xs|
      invariant 0 <= i <= |xs|
      invariant StrictlyAscending(ys)
      invariant multiset(ys) == multiset(xs[..i])
      invariant forall r :: r in ys <==> r in xs[..i]
    {
      NewIDNotSorted(xs, ys, i);
      InsertByIDSorted(ys, xs[i]);
      InsertByIDMembers(ys, xs[i]);
      ys := InsertByID(ys, xs[i]);
      assert xs[..i + 1] == xs[..i] + [xs[i]];
      i := i + 1;
    }
    assert xs[..i] == xs;
  }

  lemma NewIDNotSorted(xs: seq<ApproverSetRecord>, ys: seq<ApproverSetRecord>, i: int)
    requires DistinctIDs(xs) && 0 <= i < |xs|
    requires forall r :: r in ys ==> r in xs[..i]
    ensures forall k :: 0 <= k < |ys| ==> ys[k].id != xs[i].id
  {
    forall k | 0 <= k < |ys|
      ensures ys[k].id != xs[i].id
    {
      assert ys[k] in xs[..i];
      var m :| 0 <= m < i && xs[..i][m] == ys[k];
      assert xs[m] == ys[k];
    }
  }

  /** The inner loop of ParseApproverSets over the tokens of one form
      value, carrying the map and the two listings. */
  method ScanWords(found: map<int, Option<ApproverSetRecord>>, unparsable: string, invalid: string,
                   words: seq<string>, lookup: int -> Result<ApproverSetRecord>)
    returns (found': map<int, Option<ApproverSetRecord>>, unparsable': string, invalid': string)
    ensures ScanState(found', unparsable', invalid') == Scan(ScanState(found, unparsable, invalid), words, lookup)
  {
    found', unparsable', invalid' := found, unparsable, invalid;
    var j := 0;
    while j < |words|
      invariant 0 <= j <= |words|
      invariant ScanState(found', unparsable', invalid') == Scan(ScanState(found, unparsable, invalid), words[..j], lookup)
    {
      assert words[..j + 1][..j] == words[..j];
      found', unparsable', invalid' := ScanOne(found', unparsable', invalid', words[j], lookup);
      j := j + 1;
    }
    assert words[..j] == words;
  }

  /** Scanning two token lists one after the other is scanning their
      concatenation. */
  lemma {:induction false} ScanAppend(st: ScanState, a: seq<string>, b: seq<string>, lookup: int -> Result<ApproverSetRecord>)
    ensures Scan(Scan(st, a, lookup), b, lookup) == Scan(st, a + b, lookup)
  {
    if b != [] {
      var init := b[..|b| - 1];
      ScanAppend(st, a, init, lookup);
      assert (a + b)[..|a + b| - 1] == a + init;
    } else {
      assert a + b == a;
    }
  }

  /** One token of the inner loop. */
  method ScanOne(found: map<int, Option<ApproverSetRecord>>, unparsable: string, invalid: string,
                 raw: string, lookup: int -> Result<ApproverSetRecord>)
    returns (found': map<int, Option<ApproverSetRecord>>, unparsable': string, invalid': string)
    ensures ScanState(found', unparsable', invalid') == ScanToken(ScanState(found, unparsable, invalid), raw, lookup)
  {
    found', unparsable', invalid' := found, unparsable, invalid;
    var parsed := ParseInt(raw);
    if parsed.None? {
      unparsable' := unparsable' + " " + raw;
    } else if parsed.value !in found' {
      var id := parsed.value;
      var loaded := lookup(id);
      if loaded.Err? {
        found' := found'[id := None];
        invalid' := invalid' + " (" + IntToString(id) + ": " + loaded.msg + ")";
      } else {
        found' := found'[id := Some(loaded.value)];
      }
    }
  }

  /** The two nested loops of ParseApproverSets, after the default set. */
  method ScanForm(values: seq<string>, requireAppSet1: bool, defaultSet: Result<ApproverSetRecord>,
                  lookup: int -> Result<ApproverSetRecord>)
    returns (found: map<int, Option<ApproverSetRecord>>, unparsable: string, invalid: string)
    ensures ScanState(found, unparsable, invalid) == Scan(InitialScan(requireAppSet1, defaultSet), FormTokens(values), lookup)
  {
    ghost var st0 := InitialScan(requireAppSet1, defaultSet);
    unparsable, invalid := "", "";
    found := map[];
    if requireAppSet1 {
      if defaultSet.Err? {
        invalid := invalid + " (DefaultApproverSet: " + defaultSet.msg + ")";
      } else {
        found := found[defaultSet.value.id := Some(defaultSet.value)];
      }
    }
    var c := 0;
    while c < |values|
      invariant 0 <= c <= |values|
      invariant ScanState(found, unparsable, invalid) == Scan(st0, FormTokens(values[..c]), lookup)
    {
      var words := Split(values[c], ' ');
      found, unparsable, invalid := ScanWords(found, unparsable, invalid, words, lookup);
      ScanAppend(st0, FormTokens(values[..c]), words, lookup);
      FormTokensSnoc(values, c);
      c := c + 1;
    }
    assert values[..c] == values;
  }

  lemma DistinctSnoc(sets: seq<ApproverSetRecord>, x: ApproverSetRecord)
    requires DistinctIDs(sets) && forall r :: r in sets ==> r.id != x.id
    ensures DistinctIDs(sets + [x])
  {
    forall i, j | 0 <= i < j < |sets| + 1
      ensures (sets + [x])[i].id != (sets + [x])[j].id
    {
      if j == |sets| {
        assert sets[i] in sets;
      }
    }
  }

  /** The range over the map, in no fixed order, keeping the loaded sets. */
  method CollectLoaded(found: map<int, Option<ApproverSetRecord>>) returns (collected: seq<ApproverSetRecord>)
    requires forall id :: id in found && found[id].Some? ==> found[id].value.id == id
    ensures DistinctIDs(collected)
    ensures forall r :: r in collected <==> r.id in found && found[r.id] == Some(r)
  {
    collected := [];
    var remaining := found.Keys;
    while remaining != {}
      invariant remaining <= found.Keys
      invariant forall r :: r in collected ==> r.id in found && r.id !in remaining && found[r.id] == Some(r)
      invariant forall id :: id in found && id !in remaining && found[id].Some? ==> found[id].value in collected
      invariant DistinctIDs(collected)
      decreases remaining
    {
      var key := AnyElement(remaining);
      var entry := found[key];
      if entry.Some? {
        DistinctSnoc(collected, entry.value);
        collected := collected + [entry.value];
      }
      remaining := remaining - {key};
    }
  }

  /** ParseApproverSets: the sets named by the space-separated IDs of the
      form field `values` (plus set 1 when required), loaded once each and
      returned in ascending ID order; any unparsable token or failed lookup
      yields the error and no sets at all. */
  method ParseApproverSets(values: seq<string>, htmlID: string, requireAppSet1: bool,
                           defaultSet: Result<ApproverSetRecord>, lookup: int -> Result<ApproverSetRecord>)
    returns (sets: seq<ApproverSetRecord>, err: Option<string>)
    requires LookupByID(defaultSet, lookup)
    ensures err == ErrorText(htmlID, Scan(InitialScan(requireAppSet1, defaultSet), FormTokens(values), lookup))
    ensures err.None? <==> ParsesCleanly(values, requireAppSet1, defaultSet, lookup)
    ensures err.Some? ==> sets == []
    ensures err.None? ==> StrictlyAscending(sets)
    ensures err.None? ==> forall r :: r in sets <==>
      r.id in RequestedIDs(values, requireAppSet1) && Source(r.id, requireAppSet1, defaultSet, lookup) == Ok(r)
  {
    var appSetMap, unparsableIDs, invalidIDs := ScanForm(values, requireAppSet1, defaultSet, lookup);
    ScanOutcome(htmlID, values, requireAppSet1, defaultSet, lookup);
    var errorStr := "";
    if unparsableIDs != "" {
      errorStr := errorStr + " These IDs did not parse: " + unparsableIDs;
    }
    if invalidIDs != "" {
      errorStr := errorStr + " These IDs failed to load: " + invalidIDs;
    }
    if errorStr != "" {
      err := Some("ParseApproverSets failed for " + htmlID + ": " + errorStr);
      sets := [];
      return;
    }
    err := None;
    ghost var found := appSetMap;
    assert forall id :: id in found ==> found[id] == Entry(Source(id, requireAppSet1, defaultSet, lookup));
    var collected := CollectLoaded(appSetMap);
    sets := SortByID(collected);
  }

  /** No two sets a successful parse returns share an ID. */
  lemma AscendingHasNoDuplicates(sets: seq<ApproverSetRecord>)
    requires StrictlyAscending(sets)
    ensures DistinctIDs(sets)
  {
  }

  /** With requireAppSet1, a successful parse always includes the default
      set. */
  lemma ParsedIncludesDefault(values: seq<string>, requireAppSet1: bool,
                              defaultSet: Result<ApproverSetRecord>, lookup: int -> Result<ApproverSetRecord>,
                              sets: seq<ApproverSetRecord>)
    requires requireAppSet1 && defaultSet.Ok? && defaultSet.value.id == DefaultApproverSetID
    requires forall r :: r in sets <==>
      r.id in RequestedIDs(values, requireAppSet1) && Source(r.id, requireAppSet1, defaultSet, lookup) == Ok(r)
    ensures defaultSet.value in sets
  {
  }

  /** A token that does not parse is only listed, after a space, and the
      listing makes the whole parse fail. */
  lemma UnparsableTokenFails(htmlID: string, st: ScanState, raw: string, lookup: int -> Result<ApproverSetRecord>)
    requires ParseInt(raw).None?
    ensures ScanToken(st, raw, lookup) == st.(unparsable := st.unparsable + " " + raw)
    ensures ErrorText(htmlID, ScanToken(st, raw, lookup)).Some?
  {
  }

  // Export and comparison

  /** The short export of one set. */
  function ShortExport(s: ApproverSetRecord): ApproverSetExportShort
  {
    ApproverSetExportShort(s.id, s.state, s.createdAt, s.createdBy)
  }

  /** `exports` holds the short export of each set, in order. */
  predicate ExportsOf(sets: seq<ApproverSetRecord>, exports: seq<ApproverSetExportShort>)
  {
    |exports| == |sets| && forall i :: 0 <= i < |sets| ==> exports[i] == ShortExport(sets[i])
  }

  /** GetApproverSetExportArr: one short export per set, in order. */
  method GetApproverSetExportArr(sets: seq<ApproverSetRecord>) returns (exports: seq<ApproverSetExportShort>)
    ensures ExportsOf(sets, exports)
  {
    exports := [];
    var i := 0;
    while i < |sets|
      invariant 0 <= i <= |sets|
      invariant |exports| == i
      invariant forall k :: 0 <= k < i ==>
        exports[k] == ApproverSetExportShort(sets[k].id, sets[k].state, sets[k].createdAt, sets[k].createdBy)
    {
      exports := exports + [ApproverSetExportShort(sets[i].id, sets[i].state, sets[i].createdAt, sets[i].createdBy)];
      i := i + 1;
    }
  }

  function SetIDs(sets: seq<ApproverSetRecord>): (r: seq<int>)
    ensures |r| == |sets| && forall i :: 0 <= i < |sets| ==> r[i] == sets[i].id
  {
    if sets == [] then [] else SetIDs(sets[..|sets| - 1]) + [sets[|sets| - 1].id]
  }

  function ExportIDs(exports: seq<ApproverSetExportShort>): (r: seq<int>)
    ensures |r| == |exports| && forall i :: 0 <= i < |exports| ==> r[i] == exports[i].id
  {
    if exports == [] then [] else ExportIDs(exports[..|exports| - 1]) + [exports[|exports| - 1].id]
  }

  /** The export keeps the IDs, so a list compares equal to its own export. */
  lemma ExportKeepsIDs(sets: seq<ApproverSetRecord>, exports: seq<ApproverSetExportShort>)
    requires ExportsOf(sets, exports)
    ensures SetIDs(sets) == ExportIDs(exports)
    ensures SameIdLists(SetIDs(sets), ExportIDs(exports))
  {
  }

  /** CompareToApproverSetListToExportShort: same count and every ID found
      in the other list, both ways. */
  method CompareToApproverSetListToExportShort(sets: seq<ApproverSetRecord>, exports: seq<ApproverSetExportShort>)
    returns (r: bool)
    ensures r <==> SameIdLists(SetIDs(sets), ExportIDs(exports))
  {
    r := CompareIdLists(SetIDs(sets), ExportIDs(exports));
  }

  /** CompareToApproverSetExportShortLists: the same test on two exports. */
  method CompareToApproverSetExportShortLists(exports1: seq<ApproverSetExportShort>, exports2: seq<ApproverSetExportShort>)
    returns (r: bool)
    ensures r <==> SameIdLists(ExportIDs(exports1), ExportIDs(exports2))
  {
    r := CompareIdLists(ExportIDs(exports1), ExportIDs(exports2));
  }

  // UpdateState

  /** What UpdateState learns from the database while in a pending state
      with a pending revision attached to a change request: whether the CR
      checks out, the CR's state, the pending revision's desired state and
      the state of the current revision. */
  datatype PendingView = PendingView(crChecksOut: bool, crState: string, pendingDesiredState: string,
                                     currentRevisionState: string)

  /** The outcome of one UpdateState call: the in-memory state, the state
      written to the stored copy (if any), the two flags and the errors. */
  datatype SetStep = SetStep(state: string, saved: Option<string>, changesMade: bool, cascade: bool, errs: seq<string>)

  const StableStates: set<string> := {StateNew, StateInactive, StateActive}
  const PendingStates: set<string> :=
    {StatePendingBootstrap, StatePendingNew, StateActivePendingApproval, StateInactivePendingApproval}

  function InvalidPendingStateError(s: string): string
  {
    "pending revision is in an invalid state: " + s
  }

  /** UpdateState's decision for an approver set at `state`. */
  function ApproverSetStep(state: string, hasPendingCR: bool, currentRevisionValid: bool,
                           currentDesiredState: string, view: PendingView): SetStep
  {
    var none := SetStep(state, None, false, false, []);
    if state !in PendingStates then none
    else if hasPendingCR then
      if !view.crChecksOut then none
      else if view.crState == StateApproved then
        if view.pendingDesiredState == StateActive || view.pendingDesiredState == StateInactive then
          SetStep(state, Some(view.pendingDesiredState), false, true, [])
        else SetStep(state, None, false, false, [InvalidPendingStateError(view.pendingDesiredState)])
      else if view.crState == StateDeclined then
        var restored :=
          if !currentRevisionValid then StateNew
          else if view.currentRevisionState == StateBootstrap then StateActive
          else view.currentRevisionState;
        SetStep(state, Some(restored), false, true, [])
      else none
    else
      var back :=
        if state == StatePendingBootstrap then StateBootstrap
        else if currentRevisionValid then currentDesiredState
        else StateNew;
      SetStep(back, Some(back), true, true, [])
  }

  /** An approver set whose pending revision has gone: back to bootstrap
      from pending bootstrap, otherwise to what the current revision asks
      for, otherwise to new; the object itself changes and the change
      cascades. */
  lemma NoPendingFallsBack(state: string, currentRevisionValid: bool, currentDesiredState: string, view: PendingView)
    requires state in PendingStates
    ensures var r := ApproverSetStep(state, false, currentRevisionValid, currentDesiredState, view);
      r.changesMade && r.cascade && r.saved == Some(r.state) &&
      r.state == (if state == StatePendingBootstrap then StateBootstrap
                  else if currentRevisionValid then currentDesiredState
                  else StateNew)
  {
  }

  /** Only the fallback changes the object's own state or reports a
      change; an approved or declined CR is written to the stored copy
      alone, and a promotion only ever stores active or inactive. */
  lemma StateChangesOnlyOnFallback(state: string, hasPendingCR: bool, currentRevisionValid: bool,
                                   currentDesiredState: string, view: PendingView)
    ensures var r := ApproverSetStep(state, hasPendingCR, currentRevisionValid, currentDesiredState, view);
      (r.changesMade <==> state in PendingStates && !hasPendingCR) &&
      (r.state != state ==> r.changesMade) &&
      (r.saved.Some? && hasPendingCR && view.crState == StateApproved ==> r.saved.value in {StateActive, StateInactive}) &&
      (state !in PendingStates ==> r == SetStep(state, None, false, false, []))
  {
  }

  class ApproverSetObject {
    var state: string
    /** The state last saved to the stored copy, if UpdateState saved one. */
    var saved: Option<string>
    const currentRevisionValid: bool
    const currentDesiredState: string

    constructor (state: string, currentRevisionValid: bool, currentDesiredState: string)
      ensures this.state == state && saved == None
      ensures this.currentRevisionValid == currentRevisionValid && this.currentDesiredState == currentDesiredState
    {
      this.state := state;
      saved := None;
      this.currentRevisionValid := currentRevisionValid;
      this.currentDesiredState := currentDesiredState;
    }

    /** UpdateState, short of the database reads and the cascade to the
        pending approvals; `hasPendingCR` is PendingRevision.ID != 0 with a
        valid CRID. */
    method UpdateState(hasPendingCR: bool, view: PendingView) returns (changesMade: bool, cascade: bool, errs: seq<string>)
      modifies this
      ensures var r := ApproverSetStep(old(state), hasPendingCR, currentRevisionValid, currentDesiredState, view);
        state == r.state && changesMade == r.changesMade && cascade == r.cascade && errs == r.errs &&
        saved == (if r.saved.Some? then r.saved else old(saved))
    {
      changesMade, cascade, errs := false, false, [];
      if state == StatePendingBootstrap || state == StatePendingNew ||
         state == StateActivePendingApproval || state == StateInactivePendingApproval {
        if hasPendingCR {
          if view.crChecksOut {
            if view.crState == StateApproved {
              var targetState := view.pendingDesiredState;
              if targetState == StateActive || targetState == StateInactive {
                saved := Some(targetState);
                cascade := true;
              } else {
                errs := errs + [InvalidPendingStateError(targetState)];
                return;
              }
            } else if view.crState == StateDeclined {
              var restored: string;
              if currentRevisionValid {
                if view.currentRevisionState == StateBootstrap {
                  restored := StateActive;
                } else {
                  restored := view.currentRevisionState;
                }
              } else {
                restored := StateNew;
              }
              saved := Some(restored);
              cascade := true;
            }
          }
        } else {
          if state == StatePendingBootstrap {
            state := StateBootstrap;
          } else if currentRevisionValid {
            state := currentDesiredState;
          } else {
            state := StateNew;
          }
          saved := Some(state);
          changesMade := true;
          cascade := true;
        }
      }
    }
  }
}
