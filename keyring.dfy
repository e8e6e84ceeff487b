// The OpenPGP key ring interface that approver sets and approver set
// revision exports implement (KeysById and KeysByIdUsage of
// openpgp.KeyRing), over an abstract view of the parsed entities.

module Keyring {
  import opened Common

  /** The packet.KeyFlag* usage bits. */
  const KeyFlagCertify: bv8 := 1
  const KeyFlagSign: bv8 := 2
  const KeyFlagEncryptCommunications: bv8 := 4
  const KeyFlagEncryptStorage: bv8 := 8

  /** The parts of a self-signature the key filters look at. */
  datatype Signature = Signature(
    isPrimaryId: Option<bool>,
    hasRevocationReason: bool,
    flagsValid: bool,
    flagCertify: bool,
    flagSign: bool,
    flagEncryptCommunications: bool,
    flagEncryptStorage: bool)

  datatype Subkey = Subkey(keyId: int, sig: Signature)

  /** A parsed OpenPGP entity: its primary key ID, its identities (a Go
      map from name to the identity's self-signature), its subkeys and the
      number of revocation signatures on it. */
  datatype Entity = Entity(
    primaryKeyId: int,
    identities: map<string, Signature>,
    subkeys: seq<Subkey>,
    revocations: nat)

  /** An openpgp.Key: the entity, the ID of the public key chosen (primary
      or subkey) and the self-signature (nil when an entity has no
      identity). The private key is always nil: no private keys are kept. */
  datatype Key = Key(entity: Entity, keyId: int, selfSignature: Option<Signature>)

  predicate IsPrimary(sig: Signature) { sig.isPrimaryId == Some(true) }

  /** What the identity walk may pick as the primary key's self-signature:
      nil exactly when there is no identity, otherwise one of the
      identities' signatures, and a primary one whenever one exists. */
  ghost predicate ValidPick(identities: map<string, Signature>, pick: Option<Signature>)
  {
    (pick.None? <==> identities == map[]) &&
    (pick.Some? ==> pick.value in identities.Values) &&
    ((exists n :: n in identities && IsPrimary(identities[n])) ==> pick.Some? && IsPrimary(pick.value))
  }

  /** The walk over entity.Identities in KeysById: Go visits the map in no
      fixed order, takes the first signature it sees and replaces it by a
      later primary one, stopping there. */
  method PickSelfSignature(identities: map<string, Signature>) returns (selfSig: Option<Signature>)
    ensures ValidPick(identities, selfSig)
  {
    selfSig := None;
    var remaining := identities.Keys;
    while remaining != {}
      invariant remaining <= identities.Keys
      invariant selfSig.None? <==> remaining == identities.Keys
      invariant selfSig.Some? ==> selfSig.value in identities.Values
      invariant selfSig.Some? && !IsPrimary(selfSig.value) ==>
        forall n :: n in identities && n !in remaining ==> !IsPrimary(identities[n])
      decreases remaining
    {
      var name :| name in remaining;
      var sig := identities[name];
      remaining := remaining - {name};
      if selfSig.None? {
        selfSig := Some(sig);
      } else if IsPrimary(sig) {
        selfSig := Some(sig);
        break;
      }
    }
  }

  /** The place each returned key fills: the primary key of a matching
      entity, or one of its matching subkeys. */
  datatype KeySlot = PrimarySlot(entity: Entity) | SubkeySlot(entity: Entity, subkey: Subkey)

  /** The matching subkeys of `e` among `subs`, in order. */
  function SubkeySlots(e: Entity, subs: seq<Subkey>, keyID: int): seq<KeySlot>
  {
    if subs == [] then []
    else
      var last := subs[|subs| - 1];
      SubkeySlots(e, subs[..|subs| - 1], keyID) + (if last.keyId == keyID then [SubkeySlot(e, last)] else [])
  }

  function EntitySlots(e: Entity, keyID: int): seq<KeySlot>
  {
    (if e.primaryKeyId == keyID then [PrimarySlot(e)] else []) + SubkeySlots(e, e.subkeys, keyID)
  }

  /** The keys KeysById returns, entity by entity: the primary key when it
      matches, then each matching subkey. */
  function Slots(entities: seq<Entity>, keyID: int): seq<KeySlot>
  {
    if entities == [] then []
    else Slots(entities[..|entities| - 1], keyID) + EntitySlots(entities[|entities| - 1], keyID)
  }

  ghost predicate Fills(k: Key, slot: KeySlot)
  {
    match slot
    case PrimarySlot(e) =>
      k.entity == e && k.keyId == e.primaryKeyId && ValidPick(e.identities, k.selfSignature)
    case SubkeySlot(e, s) =>
      k.entity == e && k.keyId == s.keyId && k.selfSignature == Some(s.sig)
  }

  ghost predicate FillsAll(keys: seq<Key>, slots: seq<KeySlot>)
  {
    |keys| == |slots| && forall i :: 0 <= i < |keys| ==> Fills(keys[i], slots[i])
  }

  lemma FillsAllSnoc(keys: seq<Key>, slots: seq<KeySlot>, k: Key, s: KeySlot)
    requires FillsAll(keys, slots) && Fills(k, s)
    ensures FillsAll(keys + [k], slots + [s])
  {
    assert forall i :: 0 <= i < |keys| ==> (keys + [k])[i] == keys[i] && (slots + [s])[i] == slots[i];
  }

  lemma FillsAllAppend(keys: seq<Key>, slots: seq<KeySlot>, more: seq<Key>, moreSlots: seq<KeySlot>)
    requires FillsAll(keys, slots) && FillsAll(more, moreSlots)
    ensures FillsAll(keys + more, slots + moreSlots)
  {
    assert forall i :: 0 <= i < |keys| ==> (keys + more)[i] == keys[i] && (slots + moreSlots)[i] == slots[i];
    assert forall i :: |keys| <= i < |keys + more| ==>
      (keys + more)[i] == more[i - |keys|] && (slots + moreSlots)[i] == moreSlots[i - |keys|];
  }

  /** KeysById: the keys of the ring whose key ID is `keyID`, filled in
      the order of Slots. */
  method KeysById(entities: seq<Entity>, keyID: int) returns (keys: seq<Key>)
    ensures FillsAll(keys, Slots(entities, keyID))
  {
    keys := [];
    var i := 0;
    while i < |entities|
      invariant 0 <= i <= |entities|
      invariant FillsAll(keys, Slots(entities[..i], keyID))
    {
      var found := EntityKeys(entities[i], keyID);
      FillsAllAppend(keys, Slots(entities[..i], keyID), found, EntitySlots(entities[i], keyID));
      keys := keys + found;
      assert entities[..i + 1][..i] == entities[..i];
      i := i + 1;
    }
    assert entities[..i] == entities;
  }

  /** One entity's turn in KeysById: its primary key when it matches,
      then each matching subkey. */
  method EntityKeys(entity: Entity, keyID: int) returns (keys: seq<Key>)
    ensures FillsAll(keys, EntitySlots(entity, keyID))
  {
    keys := [];
    ghost var primary: seq<KeySlot> := [];
    if entity.primaryKeyId == keyID {
      var selfSig := PickSelfSignature(entity.identities);
      keys := [Key(entity, entity.primaryKeyId, selfSig)];
      primary := [PrimarySlot(entity)];
    }
    var j := 0;
    while j < |entity.subkeys|
      invariant 0 <= j <= |entity.subkeys|
      invariant FillsAll(keys, primary + SubkeySlots(entity, entity.subkeys[..j], keyID))
    {
      var subKey := entity.subkeys[j];
      ghost var slots := primary + SubkeySlots(entity, entity.subkeys[..j], keyID);
      assert entity.subkeys[..j + 1][..j] == entity.subkeys[..j];
      if subKey.keyId == keyID {
        FillsAllSnoc(keys, slots, Key(entity, subKey.keyId, Some(subKey.sig)), SubkeySlot(entity, subKey));
        keys := keys + [Key(entity, subKey.keyId, Some(subKey.sig))];
      }
      assert primary + SubkeySlots(entity, entity.subkeys[..j + 1], keyID) ==
        slots + (if subKey.keyId == keyID then [SubkeySlot(entity, subKey)] else []);
      j := j + 1;
    }
    assert entity.subkeys[..j] == entity.subkeys;
  }

  lemma {:induction false} SubkeySlotsMembers(e: Entity, subs: seq<Subkey>, keyID: int, slot: KeySlot)
    ensures slot in SubkeySlots(e, subs, keyID) <==>
      slot.SubkeySlot? && slot.entity == e && slot.subkey in subs && slot.subkey.keyId == keyID
  {
    if subs != [] {
      var init := subs[..|subs| - 1];
      SubkeySlotsMembers(e, init, keyID, slot);
      assert subs == init + [subs[|subs| - 1]];
    }
  }

  /** Completeness and soundness of KeysById: a primary key is returned
      exactly for the entities whose primary key has the ID, and a subkey
      exactly for the matching subkeys. */
  lemma {:induction false} SlotsMembers(entities: seq<Entity>, keyID: int, slot: KeySlot)
    ensures slot.PrimarySlot? ==>
      (slot in Slots(entities, keyID) <==> slot.entity in entities && slot.entity.primaryKeyId == keyID)
    ensures slot.SubkeySlot? ==>
      (slot in Slots(entities, keyID) <==>
        slot.entity in entities && slot.subkey in slot.entity.subkeys && slot.subkey.keyId == keyID)
  {
    if entities != [] {
      var init := entities[..|entities| - 1];
      var last := entities[|entities| - 1];
      SlotsMembers(init, keyID, slot);
      SubkeySlotsMembers(last, last.subkeys, keyID, slot);
      assert entities == init + [last];
    }
  }

  /** Every key KeysById returns has the requested ID. */
  lemma KeysByIdMatch(keys: seq<Key>, entities: seq<Entity>, keyID: int)
    requires FillsAll(keys, Slots(entities, keyID))
    ensures forall i :: 0 <= i < |keys| ==> keys[i].keyId == keyID
  {
    forall i | 0 <= i < |keys|
      ensures keys[i].keyId == keyID
    {
      var slots := Slots(entities, keyID);
      SlotsMembers(entities, keyID, slots[i]);
      if slots[i].SubkeySlot? {
        SubkeySlotsMembers(slots[i].entity, slots[i].entity.subkeys, keyID, slots[i]);
      }
    }
  }

  /** The usage byte built from the signature's four flags. */
  function Usage(sig: Signature): bv8
  {
    (if sig.flagCertify then KeyFlagCertify else 0) |
    (if sig.flagSign then KeyFlagSign else 0) |
    (if sig.flagEncryptCommunications then KeyFlagEncryptCommunications else 0) |
    (if sig.flagEncryptStorage then KeyFlagEncryptStorage else 0)
  }

  /** The per-key test of KeysByIdUsage. A key without a self-signature
      never reaches it (see KeysByIdUsage's precondition). */
  predicate Usable(k: Key, requiredUsage: bv8)
  {
    k.entity.revocations == 0 &&
    k.selfSignature.Some? &&
    !k.selfSignature.value.hasRevocationReason &&
    (k.selfSignature.value.flagsValid && requiredUsage != 0 ==>
      Usage(k.selfSignature.value) & requiredUsage == requiredUsage)
  }

  function FilterUsable(keys: seq<Key>, requiredUsage: bv8): (r: seq<Key>)
    ensures |r| <= |keys|
  {
    if keys == [] then []
    else
      var last := keys[|keys| - 1];
      FilterUsable(keys[..|keys| - 1], requiredUsage) + (if Usable(last, requiredUsage) then [last] else [])
  }

  /** The keys KeysById may return for an ID come from entities whose
      matching, unrevoked primary key has an identity to take a
      self-signature from: Go dereferences it. */
  predicate SelfSignedWhereMatched(entities: seq<Entity>, keyID: int)
  {
    forall i :: 0 <= i < |entities| && entities[i].primaryKeyId == keyID && entities[i].revocations == 0 ==>
      entities[i].identities != map[]
  }

  /** KeysByIdUsage: the keys of KeysById that pass Usable, in order. */
  method KeysByIdUsage(entities: seq<Entity>, keyID: int, requiredUsage: bv8) returns (keys: seq<Key>)
    requires SelfSignedWhereMatched(entities, keyID)
    ensures exists all :: FillsAll(all, Slots(entities, keyID)) && keys == FilterUsable(all, requiredUsage)
  {
    var all := KeysById(entities, keyID);
    keys := [];
    var i := 0;
    while i < |all|
      invariant 0 <= i <= |all|
      invariant keys == FilterUsable(all[..i], requiredUsage)
    {
      var key := all[i];
      assert all[..i + 1][..i] == all[..i];
      if key.entity.revocations > 0 {
        // revoked entity
      } else if key.selfSignature.None? {
        // only a primary key of an identity-less entity has no signature
        NoSelfSignatureIsExcluded(all, entities, keyID, i);
        assert false;
      } else if key.selfSignature.value.hasRevocationReason {
        // revoked self-signature
      } else if key.selfSignature.value.flagsValid && requiredUsage != 0 &&
                Usage(key.selfSignature.value) & requiredUsage != requiredUsage {
        // usage not covered
      } else {
        keys := keys + [key];
      }
      i := i + 1;
    }
    assert all[..i] == all;
  }

  lemma NoSelfSignatureIsExcluded(all: seq<Key>, entities: seq<Entity>, keyID: int, i: int)
    requires SelfSignedWhereMatched(entities, keyID)
    requires FillsAll(all, Slots(entities, keyID))
    requires 0 <= i < |all| && all[i].entity.revocations == 0
    ensures all[i].selfSignature.Some?
  {
    var slot := Slots(entities, keyID)[i];
    SlotsMembers(entities, keyID, slot);
    if slot.PrimarySlot? {
      var k :| 0 <= k < |entities| && entities[k] == slot.entity;
      assert entities[k].identities != map[];
    }
  }

  /** Every key KeysByIdUsage keeps passes the usage test; the kept keys
      keep their order. */
  lemma {:induction false} FilterUsableMembers(keys: seq<Key>, requiredUsage: bv8, k: Key)
    ensures k in FilterUsable(keys, requiredUsage) <==> k in keys && Usable(k, requiredUsage)
  {
    if keys != [] {
      FilterUsableMembers(keys[..|keys| - 1], requiredUsage, k);
      assert keys == keys[..|keys| - 1] + [keys[|keys| - 1]];
    }
  }

  /** How the usage test reads flag by flag: with valid flags and a
      non-zero requirement, a key passes exactly when it has every flag
      the requirement names and the requirement names no other bit. */
  lemma UsageCovers(sig: Signature, requiredUsage: bv8)
    ensures Usage(sig) & requiredUsage == requiredUsage <==>
      (requiredUsage & 0xF0 == 0 &&
       (requiredUsage & KeyFlagCertify != 0 ==> sig.flagCertify) &&
       (requiredUsage & KeyFlagSign != 0 ==> sig.flagSign) &&
       (requiredUsage & KeyFlagEncryptCommunications != 0 ==> sig.flagEncryptCommunications) &&
       (requiredUsage & KeyFlagEncryptStorage != 0 ==> sig.flagEncryptStorage))
  {
  }

  /** A revoked entity, or a self-signature carrying a revocation reason,
      keeps a key out whatever the usage asked for. */
  lemma RevokedNeverUsable(k: Key, requiredUsage: bv8)
    requires k.entity.revocations > 0 || (k.selfSignature.Some? && k.selfSignature.value.hasRevocationReason)
    ensures !Usable(k, requiredUsage)
  {
  }
}
