// The client library's disk cache (client/client.go): the validity window
// of each cached revision, the choice of a revision for a timestamp, the
// cache file paths, the map of work hints and the test for an encrypted
// PEM block.

module Client {
  import opened Common
  import opened RegistrarObject
  import opened API

  /** RevisionValidity: the times at which a revision was seen current. */
  datatype RevisionValidity = RevisionValidity(revisionID: int, minTime: int, maxTime: int)

  /** ObjectInfo: the windows recorded for one object. */
  datatype ObjectInfo = ObjectInfo(objectID: int, revisions: seq<RevisionValidity>)

  /** A file in the cache directory: an object information that decodes,
      or contents that do not decode as one. */
  datatype CacheFile = InfoFile(info: ObjectInfo) | Undecodable(msg: string)

  const ErrNoCachedVersion := "Unable to located a cached version of the object"
  /** Stands for the operating system's error on reading a missing file. */
  const ErrNoSuchFile := "no such file or directory"

  // ---------------------------------------------------------------------
  // Validity windows

  predicate Covers(rv: RevisionValidity, ts: int) { rv.minTime <= ts <= rv.maxTime }

  predicate WindowsValid(revs: seq<RevisionValidity>)
  {
    forall i :: 0 <= i < |revs| ==> revs[i].minTime <= revs[i].maxTime
  }

  predicate HasRevision(revs: seq<RevisionValidity>, revisionID: int)
  {
    exists i :: 0 <= i < |revs| && revs[i].revisionID == revisionID
  }

  /** One entry's window stretched to take in `ts`. */
  function Widen(rv: RevisionValidity, ts: int): RevisionValidity
  {
    rv.(minTime := if ts < rv.minTime then ts else rv.minTime,
        maxTime := if ts > rv.maxTime then ts else rv.maxTime)
  }

  /** Every entry of the revision widened; the others as they were. */
  function WidenAll(revs: seq<RevisionValidity>, revisionID: int, ts: int): seq<RevisionValidity>
  {
    seq(|revs|, i requires 0 <= i < |revs| =>
      if revs[i].revisionID == revisionID then Widen(revs[i], ts) else revs[i])
  }

  /** The object information UpdateRevisionList writes back: a known
      revision has its windows widened to take in `ts`, an unknown one is
      appended with the window [ts, ts]. */
  function Recorded(info: ObjectInfo, revisionID: int, ts: int): ObjectInfo
  {
    if HasRevision(info.revisions, revisionID) then info.(revisions := WidenAll(info.revisions, revisionID, ts))
    else info.(revisions := info.revisions + [RevisionValidity(revisionID, ts, ts)])
  }

  /** Recording keeps every window well formed, and afterwards every entry
      of the revision covers `ts`. */
  lemma RecordedWindows(info: ObjectInfo, revisionID: int, ts: int)
    requires WindowsValid(info.revisions)
    ensures var r := Recorded(info, revisionID, ts).revisions;
      WindowsValid(r) && HasRevision(r, revisionID)
      && forall i :: 0 <= i < |r| && r[i].revisionID == revisionID ==> Covers(r[i], ts)
  {
    var r := Recorded(info, revisionID, ts).revisions;
    if HasRevision(info.revisions, revisionID) {
      var k :| 0 <= k < |info.revisions| && info.revisions[k].revisionID == revisionID;
      assert r[k].revisionID == revisionID;
    } else {
      assert r[|r| - 1].revisionID == revisionID;
    }
  }

  /** Recording touches only the entries of the revision, and each of
      those only grows: the other entries keep their place and window, and
      an unknown revision is added at the end. */
  lemma RecordedKeepsOthers(info: ObjectInfo, revisionID: int, ts: int)
    ensures var r := Recorded(info, revisionID, ts).revisions;
      var revs := info.revisions;
      Recorded(info, revisionID, ts).objectID == info.objectID
      && |r| == |revs| + (if HasRevision(revs, revisionID) then 0 else 1)
      && (forall i :: 0 <= i < |revs| && revs[i].revisionID != revisionID ==> r[i] == revs[i])
      && (forall i :: 0 <= i < |revs| && revs[i].revisionID == revisionID ==>
            r[i].revisionID == revisionID && r[i].minTime <= revs[i].minTime && revs[i].maxTime <= r[i].maxTime)
  {
  }

  /** Recording the same revision at the same time twice is the same as
      recording it once. */
  lemma RecordedIdempotent(info: ObjectInfo, revisionID: int, ts: int)
    ensures Recorded(Recorded(info, revisionID, ts), revisionID, ts) == Recorded(info, revisionID, ts)
  {
    var once := Recorded(info, revisionID, ts);
    assert HasRevision(once.revisions, revisionID) by {
      if HasRevision(info.revisions, revisionID) {
        var k :| 0 <= k < |info.revisions| && info.revisions[k].revisionID == revisionID;
        assert once.revisions[k].revisionID == revisionID;
      } else {
        assert once.revisions[|once.revisions| - 1].revisionID == revisionID;
      }
    }
    var twice := WidenAll(once.revisions, revisionID, ts);
    forall i | 0 <= i < |twice|
      ensures twice[i] == once.revisions[i]
    {
      if once.revisions[i].revisionID == revisionID {
        if HasRevision(info.revisions, revisionID) {
          assert once.revisions == WidenAll(info.revisions, revisionID, ts);
          assert info.revisions[i].revisionID == revisionID;
        }
      }
    }
    assert twice == once.revisions;
  }

  // ---------------------------------------------------------------------
  // The revision for a timestamp

  /** The revision of the first window that covers `ts`, if any. */
  function WindowFor(revs: seq<RevisionValidity>, ts: int): Option<int>
  {
    if revs == [] then None
    else if Covers(revs[0], ts) then Some(revs[0].revisionID)
    else WindowFor(revs[1..], ts)
  }

  lemma {:induction false} WindowForMeaning(revs: seq<RevisionValidity>, ts: int)
    ensures WindowFor(revs, ts).None? <==> forall i :: 0 <= i < |revs| ==> !Covers(revs[i], ts)
    ensures WindowFor(revs, ts).Some? ==>
      exists i :: 0 <= i < |revs| && Covers(revs[i], ts) && revs[i].revisionID == WindowFor(revs, ts).value
        && forall j :: 0 <= j < i ==> !Covers(revs[j], ts)
  {
    if revs != [] && !Covers(revs[0], ts) {
      var rest := revs[1..];
      WindowForMeaning(rest, ts);
      assert forall i :: 0 <= i < |rest| ==> rest[i] == revs[i + 1];
      if WindowFor(rest, ts).Some? {
        var i :| 0 <= i < |rest| && Covers(rest[i], ts) && rest[i].revisionID == WindowFor(rest, ts).value
          && forall j :: 0 <= j < i ==> !Covers(rest[j], ts);
        assert forall j :: 1 <= j < i + 1 ==> revs[j] == rest[j - 1];
        assert Covers(revs[i + 1], ts) && revs[i + 1].revisionID == WindowFor(revs, ts).value;
      } else {
        assert forall i :: 1 <= i < |revs| ==> revs[i] == rest[i - 1];
      }
    }
  }

  /** After a revision is recorded at `ts`, some window covers `ts`; it
      is the recorded revision's unless an earlier entry covers it too. */
  lemma RecordedIsFound(info: ObjectInfo, revisionID: int, ts: int)
    requires WindowsValid(info.revisions)
    requires forall i :: 0 <= i < |info.revisions| && info.revisions[i].revisionID != revisionID ==>
      !Covers(info.revisions[i], ts)
    ensures WindowFor(Recorded(info, revisionID, ts).revisions, ts) == Some(revisionID)
  {
    var r := Recorded(info, revisionID, ts).revisions;
    RecordedWindows(info, revisionID, ts);
    RecordedKeepsOthers(info, revisionID, ts);
    WindowForMeaning(r, ts);
  }

  // ---------------------------------------------------------------------
  // Cache paths

  /** path.Join of the cache directory, a sub-directory and a file name. */
  function JoinPath(base: string, dir: string, name: string): string
  {
    PathJoin(PathJoin(base, dir), name)
  }

  /** "<type>.<id>.json" */
  function ObjectFileName(objType: string, id: int): string
  {
    objType + "." + IntToString(id) + ".json"
  }

  /** objectPath: "<base>/object/<type>.<id>.json". */
  function ObjectPath(base: string, objType: string, id: int): string
  {
    JoinPath(base, "object", ObjectFileName(objType, id))
  }

  /** snapshotPath: "<base>/snapshots/<type>.<id>.json". */
  function SnapshotPath(base: string, objType: string, id: int): string
  {
    JoinPath(base, "snapshots", ObjectFileName(objType, id))
  }

  /** changeRequestPath: "<base>/changerequest/<id>.json". */
  function ChangeRequestPath(base: string, id: int): string
  {
    JoinPath(base, ChangeRequestType, IntToString(id) + ".json")
  }

  /** The file name gives back the object type and ID: %d writes no '.',
      so the type is everything before the last '.' ahead of ".json". */
  lemma ObjectFileNameInjective(t1: string, i1: int, t2: string, i2: int)
    requires ObjectFileName(t1, i1) == ObjectFileName(t2, i2)
    ensures t1 == t2 && i1 == i2
  {
    var d1, d2 := IntToString(i1), IntToString(i2);
    var a, b := t1 + "." + d1, t2 + "." + d2;
    assert a == ObjectFileName(t1, i1)[..|a|] && b == ObjectFileName(t2, i2)[..|b|];
    IntToStringChars(i1);
    IntToStringChars(i2);
    DotBeforeNumber(t1, d1);
    DotBeforeNumber(t2, d2);
    assert |d1| == |d2|;
    assert d1 == a[|t1| + 1..] && d2 == b[|t2| + 1..];
    assert t1 == a[..|t1|] && t2 == b[..|t2|];
    IntToStringInjective(i1, i2);
  }

  lemma DotBeforeNumber(t: string, d: string)
    requires forall k :: 0 <= k < |d| ==> IsDigit(d[k]) || d[k] == '-'
    ensures var s := t + "." + d;
      s[|s| - |d| - 1] == '.' && forall k :: |s| - |d| <= k < |s| ==> s[k] != '.'
  {
    var s := t + "." + d;
    assert forall k :: |s| - |d| <= k < |s| ==> s[k] == d[k - (|s| - |d|)];
  }

  /** Different objects are cached in different files, and an object's
      file is never one of the snapshot files. */
  lemma CachePathsDistinct(base: string, t1: string, i1: int, t2: string, i2: int)
    ensures ObjectPath(base, t1, i1) == ObjectPath(base, t2, i2) ==> t1 == t2 && i1 == i2
    ensures ObjectPath(base, t1, i1) != SnapshotPath(base, t2, i2)
  {
    var n1, n2 := ObjectFileName(t1, i1), ObjectFileName(t2, i2);
    var head := if base == "" then "" else base + "/";
    assert ObjectPath(base, t1, i1) == head + "object/" + n1;
    assert ObjectPath(base, t2, i2) == head + "object/" + n2;
    assert SnapshotPath(base, t2, i2) == head + "snapshots/" + n2;
    if ObjectPath(base, t1, i1) == ObjectPath(base, t2, i2) {
      assert n1 == ObjectPath(base, t1, i1)[|head| + 7..];
      assert n2 == ObjectPath(base, t2, i2)[|head| + 7..];
      ObjectFileNameInjective(t1, i1, t2, i2);
    }
    assert ObjectPath(base, t1, i1)[|head|] == 'o';
    assert SnapshotPath(base, t2, i2)[|head|] == 's';
  }

  // ---------------------------------------------------------------------
  // The disk cache

  /** The file UpdateRevisionList starts from: the stored information, or
      an empty one for the object when there is no file. */
  function StartInfo(files: map<string, CacheFile>, path: string, objectID: int): ObjectInfo
    requires path !in files || files[path].InfoFile?
  {
    if path in files then files[path].info else ObjectInfo(objectID, [])
  }

  /** DiskCache: the cache directory and the files written under it. */
  class DiskCache {
    const basePath: string
    var files: map<string, CacheFile>

    constructor (basePath: string)
      ensures this.basePath == basePath && files == map[]
    {
      this.basePath := basePath;
      files := map[];
    }

    /** UpdateRevisionList: read the object's file (a missing one starts
        empty), record the revision at `ts` and write the file back.
        `writeErr` is the outcome of writing the file. */
    method UpdateRevisionList(objectType: string, objectID: int, revisionID: int, ts: int, writeErr: Option<string>)
      returns (err: Option<string>)
      modifies this
      ensures var path := ObjectPath(basePath, objectType, objectID);
        path in old(files) && old(files)[path].Undecodable? ==>
          err == Some(old(files)[path].msg) && files == old(files)
      ensures var path := ObjectPath(basePath, objectType, objectID);
        (path !in old(files) || old(files)[path].InfoFile?) ==>
          err == writeErr
          && files == (if writeErr.Some? then old(files)
                       else old(files)[path := InfoFile(Recorded(StartInfo(old(files), path, objectID), revisionID, ts))])
    {
      var path := ObjectPath(basePath, objectType, objectID);
      if path in files && files[path].Undecodable? {
        return Some(files[path].msg);
      }
      var oi := StartInfo(files, path, objectID);
      var revs := oi.revisions;
      var foundRevision := false;
      var idx := 0;
      while idx < |revs|
        invariant 0 <= idx <= |revs| == |oi.revisions|
        invariant forall i :: 0 <= i < idx ==>
          revs[i] == (if oi.revisions[i].revisionID == revisionID then Widen(oi.revisions[i], ts) else oi.revisions[i])
        invariant forall i :: idx <= i < |revs| ==> revs[i] == oi.revisions[i]
        invariant foundRevision <==> exists i :: 0 <= i < idx && oi.revisions[i].revisionID == revisionID
      {
        var rev := revs[idx];
        if rev.revisionID == revisionID {
          foundRevision := true;
          if ts > rev.maxTime {
            revs := revs[idx := revs[idx].(maxTime := ts)];
          }
          if ts < rev.minTime {
            revs := revs[idx := revs[idx].(minTime := ts)];
          }
        }
        idx := idx + 1;
      }
      if foundRevision {
        assert revs == WidenAll(oi.revisions, revisionID, ts);
      } else {
        revs := revs + [RevisionValidity(revisionID, ts, ts)];
      }
      assert oi.(revisions := revs) == Recorded(oi, revisionID, ts);
      if writeErr.Some? {
        return writeErr;
      }
      files := files[path := InfoFile(oi.(revisions := revs))];
      err := None;
    }

    /** The window lookup of getRevisionObject: the revision whose snapshot
        is read for `ts`. */
    method RevisionFor(objectType: string, objectID: int, ts: int) returns (r: Result<int>)
      ensures var path := ObjectPath(basePath, objectType, objectID);
        r == if path !in files then Err(ErrNoSuchFile)
             else if files[path].Undecodable? then Err(files[path].msg)
             else if WindowFor(files[path].info.revisions, ts).None? then Err(ErrNoCachedVersion)
             else Ok(WindowFor(files[path].info.revisions, ts).value)
    {
      var path := ObjectPath(basePath, objectType, objectID);
      if path !in files {
        return Err(ErrNoSuchFile);
      }
      if files[path].Undecodable? {
        return Err(files[path].msg);
      }
      var revs := files[path].info.revisions;
      var i := 0;
      while i < |revs|
        invariant 0 <= i <= |revs|
        invariant WindowFor(revs[i..], ts) == WindowFor(revs, ts)
      {
        assert revs[i..][1..] == revs[i + 1..];
        if revs[i].maxTime >= ts && revs[i].minTime <= ts {
          return Ok(revs[i].revisionID);
        }
        i := i + 1;
      }
      return Err(ErrNoCachedVersion);
    }
  }

  // ---------------------------------------------------------------------
  // buildHintMap

  /** The hints keyed by object ID, a later hint replacing an earlier one. */
  function HintMap(hints: seq<APIRevisionHint>): map<int, APIRevisionHint>
  {
    if hints == [] then map[]
    else HintMap(hints[..|hints| - 1])[hints[|hints| - 1].objectID := hints[|hints| - 1]]
  }

  /** buildHintMap. */
  method BuildHintMap(hints: seq<APIRevisionHint>) returns (m: map<int, APIRevisionHint>)
    ensures m == HintMap(hints)
  {
    m := map[];
    for i := 0 to |hints|
      invariant m == HintMap(hints[..i])
    {
      assert hints[..i + 1][..i] == hints[..i];
      m := m[hints[i].objectID := hints[i]];
    }
    assert hints[..|hints|] == hints;
  }

  /** The object IDs among the hints. */
  function HintIDs(hints: seq<APIRevisionHint>): set<int>
  {
    set i | 0 <= i < |hints| :: hints[i].objectID
  }

  /** hints[i] is the last hint for object `id`. */
  predicate LastHintFor(hints: seq<APIRevisionHint>, id: int, i: int)
  {
    0 <= i < |hints| && hints[i].objectID == id
    && forall j :: i < j < |hints| ==> hints[j].objectID != id
  }

  /** The map has a key for each object ID among the hints and no other. */
  lemma {:induction false} HintMapKeys(hints: seq<APIRevisionHint>)
    ensures HintMap(hints).Keys == HintIDs(hints)
  {
    if hints != [] {
      var init := hints[..|hints| - 1];
      HintMapKeys(init);
      assert forall i :: 0 <= i < |init| ==> init[i] == hints[i];
      assert HintIDs(hints) == HintIDs(init) + {hints[|hints| - 1].objectID};
    }
  }

  /** For each key the map holds the last hint with that object ID. */
  lemma {:induction false} HintMapLatest(hints: seq<APIRevisionHint>, id: int)
    requires id in HintMap(hints)
    ensures exists i :: LastHintFor(hints, id, i) && hints[i] == HintMap(hints)[id]
  {
    var init := hints[..|hints| - 1];
    var last := hints[|hints| - 1];
    if id == last.objectID {
      assert LastHintFor(hints, id, |hints| - 1);
    } else {
      HintMapLatest(init, id);
      var i :| LastHintFor(init, id, i) && init[i] == HintMap(init)[id];
      assert forall j :: i < j < |init| ==> init[j] == hints[j];
      assert LastHintFor(hints, id, i) && hints[i] == HintMap(hints)[id];
    }
  }

  // ---------------------------------------------------------------------
  // isBlockEncrypted

  /** strings.Contains. */
  predicate ContainsText(s: string, sub: string) { exists i :: 0 <= i <= |s| && OccursAt(s, sub, i) }

  lemma ContainsIsLastIndex(s: string, sub: string)
    ensures ContainsText(s, sub) <==> LastIndex(s, sub) >= 0
  {
  }

  /** isBlockEncrypted: some header value of the PEM block mentions
      "ENCRYPTED". */
  method IsBlockEncrypted(headers: map<string, string>) returns (r: bool)
    ensures r <==> exists k :: k in headers && ContainsText(headers[k], "ENCRYPTED")
  {
    var remaining := headers.Keys;
    while remaining != {}
      invariant remaining <= headers.Keys
      invariant forall k :: k in headers && k !in remaining ==> !ContainsText(headers[k], "ENCRYPTED")
      decreases remaining
    {
      var k := AnyElement(remaining);
      ContainsIsLastIndex(headers[k], "ENCRYPTED");
      if LastIndex(headers[k], "ENCRYPTED") >= 0 {
        return true;
      }
      remaining := remaining - {k};
    }
    return false;
  }
}
