/**
 * The identity-mapping store the converter talks to: a map from
 * (connection, entity, source id) to a target uuid, with create-if-absent
 * and delete-by-uuid. Uuid generation is a counter: a generated uuid is
 * `Generated(n)` for the n-th one handed out, which is enough to say that a
 * freshly generated uuid differs from every uuid already stored.
 */
module Mapping {
  import opened Wrappers
  import opened Entities

  /** A target-system identifier: one this store generated, or one that
      exists independently (a platform default, a premapped lookup target). */
  datatype Uuid = Generated(serial: nat) | Hex(value: string)

  datatype MappingKey = MappingKey(connectionId: string, entity: Entity, oldId: string)

  datatype MappingStore = MappingStore(entries: map<MappingKey, Uuid>, issued: nat) {

    /** Every generated uuid in the store was issued before the counter's
        current value, so `Generated(issued)` is not in use yet. */
    ghost predicate Valid() {
      forall k | k in entries :: entries[k].Generated? ==> entries[k].serial < issued
    }

    /** This store still holds every mapping of `s`, with the same uuid. */
    ghost predicate Extends(s: MappingStore) {
      forall k | k in s.entries :: k in entries && entries[k] == s.entries[k]
    }
  }

  /** A preset uuid that, if generated by this store, was already issued. */
  ghost predicate PresetIssued(s: MappingStore, preset: Option<Uuid>) {
    preset.Some? && preset.value.Generated? ==> preset.value.serial < s.issued
  }

  datatype Created = Created(uuid: Uuid, store: MappingStore)

  /**
   * `createNewUuid`: the uuid already mapped for `key` if there is one;
   * otherwise a new mapping to `preset` when the caller supplies one, or to
   * a freshly generated uuid.
   */
  function CreateNewUuid(s: MappingStore, key: MappingKey, preset: Option<Uuid>): (r: Created)
    ensures key in r.store.entries && r.store.entries[key] == r.uuid
    ensures key in s.entries ==> r.uuid == s.entries[key] && r.store == s
    ensures key !in s.entries ==> r.store.entries == s.entries[key := r.uuid]
    ensures key !in s.entries && preset.Some? ==> r.uuid == preset.value
    ensures key !in s.entries && preset.None? && s.Valid() ==> r.uuid !in s.entries.Values
    ensures s.Valid() && PresetIssued(s, preset) ==> r.store.Valid()
    ensures r.store.Extends(s)
    ensures r.store.issued >= s.issued
  {
    if key in s.entries then
      Created(s.entries[key], s)
    else
      match preset
      case Some(u) => Created(u, MappingStore(s.entries[key := u], s.issued))
      case None =>
        var u := Generated(s.issued);
        Created(u, MappingStore(s.entries[key := u], s.issued + 1))
  }

  /**
   * `deleteMapping(uuid, connectionId)`: drops every mapping of that
   * connection that points at `uuid`, and nothing else.
   */
  function DeleteMapping(s: MappingStore, uuid: Uuid, connectionId: string): (r: MappingStore)
    ensures forall k :: k in r.entries <==> k in s.entries && !(k.connectionId == connectionId && s.entries[k] == uuid)
    ensures s.Extends(r)
    ensures s.Valid() ==> r.Valid()
    ensures r.issued == s.issued
  {
    MappingStore(
      map k | k in s.entries && !(k.connectionId == connectionId && s.entries[k] == uuid) :: s.entries[k],
      s.issued)
  }
}
