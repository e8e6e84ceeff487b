// The per-request write-through object cache (lib/dbcache.go): one map per
// object type from ID to the prepared object, hit and miss counters, a
// wipe on every write, purging of one entry and the find path.

module DBCache {
  import opened Common
  import opened Core

  /** The fourteen object types the cache keeps a map for. */
  datatype CacheKind =
    | ApproverKind | ApproverRevisionKind
    | ApproverSetKind | ApproverSetRevisionKind
    | APIUserKind | APIUserRevisionKind
    | ChangeRequestKind | ApprovalKind
    | DomainKind | DomainRevisionKind
    | HostKind | HostRevisionKind
    | ContactKind | ContactRevisionKind

  /** The dynamic type of the value handed to the cache: one of the cached
      types, another registrar object, or something else. */
  datatype ObjectType = Cached(kind: CacheKind) | OtherRegistrarObject | NotRegistrarObject

  const ErrUnsupportedType := "unsupported Type"
  const ErrNotRegistrarObject := "FindByID is only supported for objects that implement RegistrarObject"

  /** The counters and the fourteen maps; `V` stands for the objects. */
  datatype CacheState<V> = CacheState(hits: int, misses: int, tables: map<CacheKind, map<int, V>>)

  /** There is a map for every cached type. */
  predicate Complete<V>(tables: map<CacheKind, map<int, V>>)
  {
    forall k: CacheKind :: k in tables
  }

  /** A map with an entry for each of the fourteen constructors has one
      for every type. */
  lemma KindsExhaustive<V>(t: map<CacheKind, map<int, V>>)
    requires ApproverKind in t && ApproverRevisionKind in t && ApproverSetKind in t
    requires ApproverSetRevisionKind in t && APIUserKind in t && APIUserRevisionKind in t
    requires ChangeRequestKind in t && ApprovalKind in t && DomainKind in t
    requires DomainRevisionKind in t && HostKind in t && HostRevisionKind in t
    requires ContactKind in t && ContactRevisionKind in t
    ensures Complete(t)
  {
    forall k: CacheKind
      ensures k in t
    {
      match k
      case ApproverKind =>
      case ApproverRevisionKind =>
      case ApproverSetKind =>
      case ApproverSetRevisionKind =>
      case APIUserKind =>
      case APIUserRevisionKind =>
      case ChangeRequestKind =>
      case ApprovalKind =>
      case DomainKind =>
      case DomainRevisionKind =>
      case HostKind =>
      case HostRevisionKind =>
      case ContactKind =>
      case ContactRevisionKind =>
    }
  }

  /** The fourteen maps WipeCache makes, all empty. */
  function EmptyTables<V>(): (t: map<CacheKind, map<int, V>>)
    ensures Complete(t)
    ensures forall k :: k in t ==> t[k] == map[]
  {
    var t := map[ApproverKind := map[], ApproverRevisionKind := map[],
                 ApproverSetKind := map[], ApproverSetRevisionKind := map[],
                 APIUserKind := map[], APIUserRevisionKind := map[],
                 ChangeRequestKind := map[], ApprovalKind := map[],
                 DomainKind := map[], DomainRevisionKind := map[],
                 HostKind := map[], HostRevisionKind := map[],
                 ContactKind := map[], ContactRevisionKind := map[]];
    KindsExhaustive(t);
    t
  }

  /** The outcome of Find: the new cache state and the object handed back. */
  datatype FindOutcome<V> = FindOutcome(state: CacheState<V>, result: Result<V>)

  /** An object's Prepare: it runs on the cache as it stands (its own
      lookups of linked objects go through the same cache) and gives the
      cache afterwards with the prepared object or an error. */
  type PrepareStep<!V> = (CacheState<V>, V) -> (CacheState<V>, Result<V>)

  /** Prepare keeps a map for every cached type, as the nested lookups of
      linked objects do. */
  ghost predicate PreparesWell<V(!new)>(prepare: PrepareStep<V>)
  {
    forall s: CacheState<V>, v: V :: Complete(s.tables) ==> Complete(prepare(s, v).0.tables)
  }

  /** Prepare never lowers a counter and never drops or changes a cached
      entry: what its nested finds of linked objects do. */
  ghost predicate PreparesMonotone<V(!new)>(prepare: PrepareStep<V>)
  {
    forall s: CacheState<V>, v: V :: Complete(s.tables) ==> Grows(s, prepare(s, v).0)
  }

  /** `s2` keeps every map and entry of `s1`, and no counter went down. */
  ghost predicate Grows<V>(s1: CacheState<V>, s2: CacheState<V>)
  {
    s1.hits <= s2.hits && s1.misses <= s2.misses
    && forall k, i :: k in s1.tables && i in s1.tables[k] ==>
         k in s2.tables && i in s2.tables[k] && s2.tables[k][i] == s1.tables[k][i]
  }

  /** The miss path of Find: the database row `first` is loaded and
      counted as a miss, the object is prepared on the cache as it is
      then, and a copy is stored under its ID in the cache Prepare left. */
  function MissStep<V(!new)>(s: CacheState<V>, k: CacheKind, id: int, first: Result<V>, prepare: PrepareStep<V>): FindOutcome<V>
    requires Complete(s.tables) && PreparesWell(prepare)
  {
    if first.Err? then FindOutcome(s, Err(first.msg))
    else
      var (p, prepared) := prepare(s.(misses := s.misses + 1), first.value);
      if prepared.Err? then FindOutcome(p, Err("error preparing object: " + prepared.msg))
      else FindOutcome(p.(tables := p.tables[k := p.tables[k][id := prepared.value]]), Ok(prepared.value))
  }

  /** Find: a cached object is copied out and counted as a hit; otherwise
      the miss path. Other types are refused. */
  function FindStep<V(!new)>(s: CacheState<V>, t: ObjectType, id: int, first: Result<V>, prepare: PrepareStep<V>): FindOutcome<V>
    requires Complete(s.tables) && PreparesWell(prepare)
  {
    if !t.Cached? then FindOutcome(s, Err(ErrUnsupportedType))
    else if id in s.tables[t.kind] then FindOutcome(s.(hits := s.hits + 1), Ok(s.tables[t.kind][id]))
    else MissStep(s, t.kind, id, first, prepare)
  }

  /** Purge: the entry of that type and ID is dropped; other types are
      refused. `rendering` is how the value prints with %s. */
  function PurgeStep<V>(s: CacheState<V>, t: ObjectType, id: int, rendering: string): (CacheState<V>, Option<string>)
    requires Complete(s.tables)
  {
    if t.Cached? then (s.(tables := s.tables[t.kind := s.tables[t.kind] - {id}]), None)
    else (s, Some("unsupported Type: " + rendering))
  }

  // ---------------------------------------------------------------------
  // Properties of the cache

  /** Find keeps a map for every type. When Prepare's own lookups keep
      what they find, so does Find: no counter goes down and no cached
      entry is dropped or changed. */
  lemma FindKeepsEntries<V(!new)>(s: CacheState<V>, t: ObjectType, id: int, first: Result<V>, prepare: PrepareStep<V>)
    requires Complete(s.tables) && PreparesWell(prepare)
    ensures Complete(FindStep(s, t, id, first, prepare).state.tables)
    ensures PreparesMonotone(prepare) ==> Grows(s, FindStep(s, t, id, first, prepare).state)
  {
    if t.Cached? && id !in s.tables[t.kind] && first.Ok? {
      var s1 := s.(misses := s.misses + 1);
      var (p, prepared) := prepare(s1, first.value);
      assert Complete(p.tables);
      if PreparesMonotone(prepare) {
        assert Grows(s1, p);
      }
    }
  }

  /** A hit hands back the cached object and counts only a hit. */
  lemma FindHit<V(!new)>(s: CacheState<V>, k: CacheKind, id: int, first: Result<V>, prepare: PrepareStep<V>)
    requires Complete(s.tables) && PreparesWell(prepare) && id in s.tables[k]
    ensures FindStep(s, Cached(k), id, first, prepare) == FindOutcome(s.(hits := s.hits + 1), Ok(s.tables[k][id]))
  {
  }

  /** A miss whose load and preparation succeed: Prepare runs on the cache
      with the miss already counted, the prepared object is handed back and
      stored in the cache Prepare leaves, and the next find of it is a hit
      on the same object whatever the database would say then. */
  lemma FindMissThenHit<V(!new)>(s: CacheState<V>, k: CacheKind, id: int, first: Result<V>, prepare: PrepareStep<V>,
                           first2: Result<V>, prepare2: PrepareStep<V>)
    requires Complete(s.tables) && PreparesWell(prepare) && PreparesWell(prepare2) && id !in s.tables[k]
    requires first.Ok? && prepare(s.(misses := s.misses + 1), first.value).1.Ok?
    ensures var (p, prepared) := prepare(s.(misses := s.misses + 1), first.value);
      var o := FindStep(s, Cached(k), id, first, prepare);
      o.result == prepared
      && o.state == p.(tables := p.tables[k := p.tables[k][id := prepared.value]])
      && Complete(o.state.tables)
      && FindStep(o.state, Cached(k), id, first2, prepare2).result == o.result
  {
    var (p, prepared) := prepare(s.(misses := s.misses + 1), first.value);
    assert Complete(p.tables);
    var o := FindStep(s, Cached(k), id, first, prepare);
    assert id in o.state.tables[k];
  }

  /** A miss that fails to load changes nothing. One that fails to
      prepare stores nothing itself: the cache is what Prepare left, with
      the miss counted first. */
  lemma FindMissFails<V(!new)>(s: CacheState<V>, k: CacheKind, id: int, first: Result<V>, prepare: PrepareStep<V>)
    requires Complete(s.tables) && PreparesWell(prepare) && id !in s.tables[k]
    ensures first.Err? ==> FindStep(s, Cached(k), id, first, prepare) == FindOutcome(s, Err(first.msg))
    ensures first.Ok? && prepare(s.(misses := s.misses + 1), first.value).1.Err? ==>
      var (p, prepared) := prepare(s.(misses := s.misses + 1), first.value);
      FindStep(s, Cached(k), id, first, prepare) == FindOutcome(p, Err("error preparing object: " + prepared.msg))
  {
  }

  /** An unsupported type touches neither the counters nor the maps. */
  lemma FindUnsupported<V(!new)>(s: CacheState<V>, t: ObjectType, id: int, first: Result<V>, prepare: PrepareStep<V>)
    requires Complete(s.tables) && PreparesWell(prepare) && !t.Cached?
    ensures FindStep(s, t, id, first, prepare) == FindOutcome(s, Err(ErrUnsupportedType))
  {
  }

  /** Purge removes exactly the entry with the matching type and ID. */
  lemma PurgeRemovesOnly<V>(s: CacheState<V>, k: CacheKind, id: int, rendering: string)
    requires Complete(s.tables)
    ensures var (s', err) := PurgeStep(s, Cached(k), id, rendering);
      err == None && Complete(s'.tables) && s'.hits == s.hits && s'.misses == s.misses
      && id !in s'.tables[k]
      && forall k2, i :: k2 in s.tables && (k2 != k || i != id) ==>
           (i in s'.tables[k2] <==> i in s.tables[k2]) && (i in s.tables[k2] ==> s'.tables[k2][i] == s.tables[k2][i])
  {
  }

  /** After a purge the next find of that object goes to the database. */
  lemma PurgeThenMiss<V(!new)>(s: CacheState<V>, k: CacheKind, id: int, rendering: string, first: Result<V>, prepare: PrepareStep<V>)
    requires Complete(s.tables) && PreparesWell(prepare)
    ensures var s' := PurgeStep(s, Cached(k), id, rendering).0;
      Complete(s'.tables) && FindStep(s', Cached(k), id, first, prepare) == MissStep(s', k, id, first, prepare)
  {
    var s' := PurgeStep(s, Cached(k), id, rendering).0;
    assert id !in s'.tables[k];
  }

  /** Purge on another type is an error that changes nothing. */
  lemma PurgeUnsupported<V>(s: CacheState<V>, t: ObjectType, id: int, rendering: string)
    requires Complete(s.tables) && !t.Cached?
    ensures PurgeStep(s, t, id, rendering).0 == s
    ensures PurgeStep(s, t, id, rendering).1.Some? && HasPrefix(PurgeStep(s, t, id, rendering).1.value, "unsupported Type: ")
  {
    var m := "unsupported Type: " + rendering;
    assert m[..18] == "unsupported Type: ";
  }

  /** After a wipe every find of a cached type is a miss. */
  lemma WipedFindMisses<V(!new)>(s: CacheState<V>, k: CacheKind, id: int, first: Result<V>, prepare: PrepareStep<V>)
    requires PreparesWell(prepare)
    ensures var w := s.(tables := EmptyTables());
      Complete(w.tables) && FindStep(w, Cached(k), id, first, prepare) == MissStep(w, k, id, first, prepare)
  {
  }

  // ---------------------------------------------------------------------
  // The cache object

  /** DBCache. */
  class Cache<V(!new)> {
    var hits: int
    var misses: int
    var tables: map<CacheKind, map<int, V>>

    ghost predicate Valid() reads this`tables { Complete(tables) }

    function State(): CacheState<V> reads this { CacheState(hits, misses, tables) }

    /** NewDBCache: zero counters and the wiped maps. */
    constructor ()
      ensures Valid() && hits == 0 && misses == 0 && tables == EmptyTables()
    {
      hits, misses := 0, 0;
      tables := EmptyTables();
    }

    /** WipeCache: every map emptied, the counters kept. */
    method WipeCache()
      modifies this`tables
      ensures Valid() && tables == EmptyTables()
    {
      tables := EmptyTables();
    }

    /** Save: the cache is wiped before the write; `saveErr` is the
        database's answer. */
    method Save(saveErr: Option<string>) returns (err: Option<string>)
      modifies this`tables
      ensures Valid() && tables == EmptyTables() && err == saveErr
    {
      WipeCache();
      err := saveErr;
    }

    /** InvalidateObject: wipes the whole cache, whatever the object. */
    method InvalidateObject()
      modifies this`tables
      ensures Valid() && tables == EmptyTables()
    {
      WipeCache();
    }

    /** Update: a failed column update returns its error and keeps the
        cache; a successful one invalidates it. */
    method Update(updateErr: Option<string>) returns (err: Option<string>)
      modifies this`tables
      ensures err == updateErr
      ensures updateErr.Some? ==> tables == old(tables)
      ensures updateErr.None? ==> Valid() && tables == EmptyTables()
    {
      if updateErr.Some? {
        return updateErr;
      }
      InvalidateObject();
      InvalidateObject();
      err := None;
    }

    /** Purge. */
    method Purge(t: ObjectType, id: int, rendering: string) returns (err: Option<string>)
      requires Valid()
      modifies this`tables
      ensures Valid()
      ensures (State(), err) == PurgeStep(old(State()), t, id, rendering)
    {
      if !t.Cached? {
        return Some("unsupported Type: " + rendering);
      }
      tables := tables[t.kind := tables[t.kind] - {id}];
      err := None;
    }

    /** Find of the object of type `t` whose ID is `id`. */
    method Find(t: ObjectType, id: int, first: Result<V>, prepare: PrepareStep<V>) returns (r: Result<V>)
      requires Valid() && PreparesWell(prepare)
      modifies this
      ensures Valid()
      ensures FindOutcome(State(), r) == FindStep(old(State()), t, id, first, prepare)
    {
      if !t.Cached? {
        return Err(ErrUnsupportedType);
      }
      if id in tables[t.kind] {
        hits := hits + 1;
        return Ok(tables[t.kind][id]);
      }
      if first.Err? {
        return Err(first.msg);
      }
      misses := misses + 1;
      var (after, prepared) := prepare(State(), first.value);
      hits, misses, tables := after.hits, after.misses, after.tables;
      if prepared.Err? {
        return Err("error preparing object: " + prepared.msg);
      }
      tables := tables[t.kind := tables[t.kind][id := prepared.value]];
      r := Ok(prepared.value);
    }

    /** FindByID: the ID is set on the object first (see Model.SetID) and
        a failure there is returned without looking anything up. */
    method FindByID(obj: Model, t: ObjectType, objID: int, first: Result<V>, prepare: PrepareStep<V>) returns (r: Result<V>)
      requires Valid() && PreparesWell(prepare)
      modifies this, obj
      ensures Valid()
      ensures t.NotRegistrarObject? ==> r == Err(ErrNotRegistrarObject) && State() == old(State())
      ensures !t.NotRegistrarObject? && old(obj.id) != 0 ==>
        r == Err("error setting object id: " + ErrIDAlreadySet) && State() == old(State())
      ensures !t.NotRegistrarObject? && old(obj.id) == 0 && objID <= 0 ==>
        r == Err("error setting object id: " + ErrIDNotPositive) && State() == old(State())
      ensures !t.NotRegistrarObject? && old(obj.id) == 0 && objID > 0 ==>
        obj.id == objID && FindOutcome(State(), r) == FindStep(old(State()), t, objID, first, prepare)
    {
      if t.NotRegistrarObject? {
        return Err(ErrNotRegistrarObject);
      }
      var err := obj.SetID(objID);
      if err.Some? {
        return Err("error setting object id: " + err.value);
      }
      r := Find(t, obj.id, first, prepare);
    }
  }
}
