/**
 * The server whose store is a `Map` from a marker's `id` to the marker
 * (server/server.js).  A POST overwrites any entry with the same id, so the
 * store never holds two entries for one id; nothing is validated.
 */
module KeyedServer {
  import opened Wrappers
  import opened Js
  import Sequences

  /** A response: a JSON body with its status. */
  datatype Reply = Json(status: nat, body: Value)

  const SuccessBody: Value := Object(map["success" := Bool(true)])
  const AddFailedBody: Value := Object(map["error" := Str("Failed to add marker")])

  /** No key occurs twice. */
  ghost predicate Distinct(keys: seq<Value>) {
    forall i, j :: 0 <= i < j < |keys| ==> keys[i] != keys[j]
  }

  /** The values of `entries`, one per key, in the order of `keys`. */
  function ValuesInOrder(keys: seq<Value>, entries: map<Value, Value>): (values: seq<Value>)
    requires forall k <- keys :: k in entries
    ensures |values| == |keys|
    ensures forall i :: 0 <= i < |keys| ==> values[i] == entries[keys[i]]
  {
    seq(|keys|, i requires 0 <= i < |keys| => entries[keys[i]])
  }

  /** A list of distinct keys covering exactly a map's domain has one element per entry. */
  lemma {:induction false} DistinctKeysCoverMap(keys: seq<Value>, entries: map<Value, Value>)
    requires Distinct(keys)
    requires forall k :: k in entries <==> k in keys
    ensures |keys| == |entries|
  {
    if keys == [] {
      assert entries.Keys == {};
    } else {
      var last := keys[|keys| - 1];
      var rest := entries - {last};
      forall k ensures k in rest <==> k in keys[..|keys| - 1] {
        if k in keys && k != last {
          var i :| 0 <= i < |keys| && keys[i] == k;
          assert i < |keys| - 1;
        }
      }
      DistinctKeysCoverMap(keys[..|keys| - 1], rest);
      assert entries.Keys == rest.Keys + {last};
    }
  }

  /** GET returns exactly one value per stored key: every listed value is stored, and every stored value is listed. */
  lemma ListIsOnePerKey(keys: seq<Value>, entries: map<Value, Value>)
    requires Distinct(keys)
    requires forall k :: k in entries <==> k in keys
    ensures |ValuesInOrder(keys, entries)| == |entries|
    ensures forall v <- ValuesInOrder(keys, entries) :: v in entries.Values
    ensures forall k <- entries :: entries[k] in ValuesInOrder(keys, entries)
  {
    DistinctKeysCoverMap(keys, entries);
    var values := ValuesInOrder(keys, entries);
    forall k <- entries ensures entries[k] in values {
      var i :| 0 <= i < |keys| && keys[i] == k;
      assert values[i] == entries[k];
    }
  }

  class MarkerStore {
    /** The map's keys in insertion order, which is the order `markers.values()` follows. */
    var keys: seq<Value>
    var entries: map<Value, Value>

    ghost predicate Valid()
      reads this
    {
      Distinct(keys) && forall k :: k in entries <==> k in keys
    }

    constructor ()
      ensures Valid() && keys == [] && entries == map[]
    {
      keys := [];
      entries := map[];
    }

    /** GET /api/markers */
    method List() returns (reply: Reply)
      requires Valid()
      ensures reply == Json(200, Array(ValuesInOrder(keys, entries)))
    {
      reply := Json(200, Array(ValuesInOrder(keys, entries)));
    }

    /**
     * POST /api/markers: store the body under `body.id` and echo it.  Reading
     * `id` of an undefined or null body throws, which the handler turns into
     * a 500 with the store untouched.
     */
    method Post(body: Value) returns (reply: Reply)
      requires Valid()
      modifies this
      ensures Valid()
      ensures Prop(body, "id").None? ==>
                reply == Json(500, AddFailedBody) && keys == old(keys) && entries == old(entries)
      ensures Prop(body, "id").Some? ==>
                && reply == Json(200, body)
                && entries == old(entries)[Prop(body, "id").value := body]
                && keys == if Prop(body, "id").value in old(entries) then old(keys) else old(keys) + [Prop(body, "id").value]
    {
      match Prop(body, "id")
      case None =>
        reply := Json(500, AddFailedBody);
      case Some(id) =>
        if id !in entries {
          keys := keys + [id];
        }
        entries := entries[id := body];
        reply := Json(200, body);
    }

    /** DELETE /api/markers/:id: drop the entry for the id, if any, and report success either way. */
    method Delete(markerId: string) returns (reply: Reply)
      requires Valid()
      modifies this
      ensures Valid()
      ensures reply == Json(200, SuccessBody)
      ensures entries == old(entries) - {Str(markerId)}
      ensures keys == Sequences.Filter(old(keys), (k: Value) => k != Str(markerId))
      ensures Str(markerId) !in old(entries) ==> keys == old(keys) && entries == old(entries)
    {
      var key := Str(markerId);
      if key !in entries {
        Sequences.FilterKeepsAll(keys, (k: Value) => k != key);
      }
      ghost var before := keys;
      keys := Sequences.Filter(keys, (k: Value) => k != key);
      entries := entries - {key};
      forall k ensures k in entries <==> k in keys {
        Sequences.FilterCount(before, (k: Value) => k != key, k);
        assert k in keys <==> multiset(keys)[k] > 0;
      }
      FilterKeepsDistinct(before, key);
      reply := Json(200, SuccessBody);
    }
  }

  /** Removing one key from a list of distinct keys leaves them distinct. */
  lemma {:induction false} FilterKeepsDistinct(keys: seq<Value>, key: Value)
    requires Distinct(keys)
    ensures Distinct(Sequences.Filter(keys, (k: Value) => k != key))
  {
    if keys != [] {
      FilterKeepsDistinct(keys[1..], key);
      var rest := Sequences.Filter(keys[1..], (k: Value) => k != key);
      if keys[0] != key {
        forall i | 0 <= i < |rest| ensures rest[i] != keys[0] {
          var j :| 0 <= j < |keys[1..]| && keys[1..][j] == rest[i];
        }
      }
    }
  }
}
