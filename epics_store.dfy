/**
 * The epic list store of frontend/src/stores/epics.js: an array of epic
 * records that is appended to, updated and spliced by id, searched and
 * cleared.
 *
 * A record is a JavaScript object whose properties are all strings here:
 * a map from property name to value. The clock (`Date.now`, `new Date`)
 * is passed in; the persistence of the array in local storage is not
 * part of this model.
 */
module EpicsStore {
  import opened Wrappers

  type Record = map<string, string>

  /** The fields addEpic copies from its argument. */
  datatype EpicInput = EpicInput(title: string, description: string, epicCode: string)

  /** `r` has the property `key` and its value is `v` (a `===` test). */
  predicate Matches(r: Record, key: string, v: string)
  {
    key in r && r[key] == v
  }

  /** Array.prototype.findIndex with the test Matches(_, key, v): the
      first matching position, or None for -1. */
  function FindIndex(rs: seq<Record>, key: string, v: string): (r: Option<nat>)
    ensures r.Some? ==> r.value < |rs| && Matches(rs[r.value], key, v)
    ensures r.Some? ==> forall j :: 0 <= j < r.value ==> !Matches(rs[j], key, v)
    ensures r.None? <==> forall j :: 0 <= j < |rs| ==> !Matches(rs[j], key, v)
  {
    if rs == [] then None
    else if Matches(rs[0], key, v) then Some(0)
    else
      match FindIndex(rs[1..], key, v)
      case None => None
      case Some(i) => Some(i + 1)
  }

  /** The record addEpic builds. */
  function NewRecord(epic: EpicInput, id: string, createdAt: string): (r: Record)
    ensures r.Keys == {"id", "title", "description", "epicCode", "createdAt"}
    ensures Matches(r, "id", id) && Matches(r, "epicCode", epic.epicCode)
  {
    map["id" := id, "title" := epic.title, "description" := epic.description,
        "epicCode" := epic.epicCode, "createdAt" := createdAt]
  }

  /** `{...old, ...update, updatedAt}`: later properties win. */
  function Merge(current: Record, update: Record, updatedAt: string): (r: Record)
    ensures r.Keys == current.Keys + update.Keys + {"updatedAt"}
    ensures r["updatedAt"] == updatedAt
    ensures forall k :: k in update && k != "updatedAt" ==> r[k] == update[k]
    ensures forall k :: k in current && k !in update && k != "updatedAt" ==> r[k] == current[k]
  {
    (current + update)["updatedAt" := updatedAt]
  }

  class Store {
    var epics: seq<Record>

    /** The store over the records already kept in local storage. */
    constructor (stored: seq<Record>)
      ensures epics == stored
    {
      epics := stored;
    }

    /** addEpic: `id` stands for Date.now().toString() and `createdAt` for
        new Date().toISOString(). */
    method AddEpic(epic: EpicInput, id: string, createdAt: string)
      modifies this
      ensures epics == old(epics) + [NewRecord(epic, id, createdAt)]
    {
      var newEpic := map["id" := id, "title" := epic.title, "description" := epic.description,
                         "epicCode" := epic.epicCode, "createdAt" := createdAt];
      epics := epics + [newEpic];
    }

    /** updateEpic: the first record with the id is overlaid by `update` and
        stamped; without such a record nothing changes. */
    method UpdateEpic(id: string, update: Record, updatedAt: string)
      modifies this
      ensures match FindIndex(old(epics), "id", id)
              case None => epics == old(epics)
              case Some(i) => epics == old(epics)[i := Merge(old(epics)[i], update, updatedAt)]
    {
      var index := FindIndex(epics, "id", id);
      if index.Some? {
        var i := index.value;
        epics := epics[i := (epics[i] + update)["updatedAt" := updatedAt]];
      }
    }

    /** removeEpic: the first record with the id is spliced out; without
        such a record nothing changes. */
    method RemoveEpic(id: string)
      modifies this
      ensures match FindIndex(old(epics), "id", id)
              case None => epics == old(epics)
              case Some(i) => epics == old(epics)[..i] + old(epics)[i + 1..]
    {
      var index := FindIndex(epics, "id", id);
      if index.Some? {
        var i := index.value;
        epics := epics[..i] + epics[i + 1..];
      }
    }

    /** getEpicById: the first record with the id, if any. */
    function GetEpicById(id: string): (r: Option<Record>)
      reads this
      ensures r.None? <==> forall j :: 0 <= j < |epics| ==> !Matches(epics[j], "id", id)
      ensures r.Some? ==> exists i :: 0 <= i < |epics| && epics[i] == r.value && Matches(r.value, "id", id)
                                      && forall j :: 0 <= j < i ==> !Matches(epics[j], "id", id)
    {
      match FindIndex(epics, "id", id)
      case None => None
      case Some(i) => Some(epics[i])
    }

    /** getEpicByCode: the first record with the epic code, if any. */
    function GetEpicByCode(code: string): (r: Option<Record>)
      reads this
      ensures r.None? <==> forall j :: 0 <= j < |epics| ==> !Matches(epics[j], "epicCode", code)
      ensures r.Some? ==> exists i :: 0 <= i < |epics| && epics[i] == r.value && Matches(r.value, "epicCode", code)
                                      && forall j :: 0 <= j < i ==> !Matches(epics[j], "epicCode", code)
    {
      match FindIndex(epics, "epicCode", code)
      case None => None
      case Some(i) => Some(epics[i])
    }

    /** clearAllEpics. */
    method ClearAllEpics()
      modifies this
      ensures epics == []
    {
      epics := [];
    }

    /** The epicCount getter. */
    function EpicCount(): (n: nat)
      reads this
      ensures n == |epics|
    {
      |epics|
    }
  }

  // ---------------------------------------------------------------------
  // What the operations do to later lookups

  /** Appending keeps every earlier match where it was and makes the new
      record findable when nothing before it matched. */
  lemma {:induction false} FindAfterAppend(rs: seq<Record>, r: Record, key: string, v: string)
    ensures FindIndex(rs + [r], key, v) ==
              if FindIndex(rs, key, v).Some? then FindIndex(rs, key, v)
              else if Matches(r, key, v) then Some(|rs|)
              else None
    decreases |rs|
  {
    if rs != [] {
      assert (rs + [r])[1..] == rs[1..] + [r];
      FindAfterAppend(rs[1..], r, key, v);
    }
  }

  /** After addEpic with a fresh id, getEpicById finds the new record, and
      the count has grown by one. */
  lemma AddThenFind(rs: seq<Record>, epic: EpicInput, id: string, createdAt: string)
    requires FindIndex(rs, "id", id).None?
    ensures FindIndex(rs + [NewRecord(epic, id, createdAt)], "id", id) == Some(|rs|)
    ensures |rs + [NewRecord(epic, id, createdAt)]| == |rs| + 1
  {
    FindAfterAppend(rs, NewRecord(epic, id, createdAt), "id", id);
  }

  /** An update that keeps the id leaves the record findable at the same
      position and the length unchanged. */
  lemma UpdateKeepsPosition(rs: seq<Record>, id: string, update: Record, updatedAt: string, i: nat)
    requires FindIndex(rs, "id", id) == Some(i)
    requires "id" in update ==> update["id"] == id
    ensures |rs[i := Merge(rs[i], update, updatedAt)]| == |rs|
    ensures FindIndex(rs[i := Merge(rs[i], update, updatedAt)], "id", id) == Some(i)
  {
    var rs' := rs[i := Merge(rs[i], update, updatedAt)];
    assert Matches(rs'[i], "id", id);
    assert forall j :: 0 <= j < i ==> rs'[j] == rs[j];
  }

  /** Removal takes out exactly the found record: the rest keep their
      order, and when ids are unique the id is no longer found. */
  lemma RemoveTakesFirst(rs: seq<Record>, id: string, i: nat)
    requires FindIndex(rs, "id", id) == Some(i)
    ensures multiset(rs[..i] + rs[i + 1..]) + multiset{rs[i]} == multiset(rs)
    ensures |rs[..i] + rs[i + 1..]| == |rs| - 1
    ensures (forall j :: 0 <= j < |rs| && j != i ==> !Matches(rs[j], "id", id)) ==>
              FindIndex(rs[..i] + rs[i + 1..], "id", id).None?
  {
    assert rs == rs[..i] + [rs[i]] + rs[i + 1..];
    var rest := rs[..i] + rs[i + 1..];
    forall j | 0 <= j < |rest|
      ensures rest[j] == if j < i then rs[j] else rs[j + 1]
    {
    }
  }
}
