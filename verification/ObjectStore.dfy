/** The immutable object namespaces of one partition: create-only puts, reads and deletes. */
module ObjectStores {
  import opened LogTypes

  /** Every object of `before` is still there, unchanged. */
  ghost predicate Extends(before: map<Key, Object>, after: map<Key, Object>) {
    forall k :: k in before ==> k in after && after[k] == before[k]
  }

  /** The keys created between two states of the store. */
  ghost function Created(before: map<Key, Object>, after: map<Key, Object>): set<Key> {
    after.Keys - before.Keys
  }

  /** One of the keys is that of a page, and the page was collected. */
  ghost predicate LostPage(keys: set<Key>, gone: set<Key>) {
    exists k :: k in keys && k in gone && !k.SegmentKey?
  }

  lemma LostMore(keys: set<Key>, more: set<Key>, gone: set<Key>)
    requires LostPage(keys, gone) && keys <= more
    ensures LostPage(more, gone)
  {
  }

  /** What was created after a collection is not among what was collected. */
  lemma LostEarlier(keys: set<Key>, before: map<Key, Object>, mid: map<Key, Object>, after: map<Key, Object>, gone: set<Key>)
    requires LostPage(keys + Created(before, after), gone) && gone <= mid.Keys
    ensures LostPage(keys + Created(before, mid), gone)
    ensures mid == before ==> LostPage(keys, gone)
  {
  }

  class ObjectStore {
    var objects: map<Key, Object>
    var nextId: nat // UUIDs are fresh: no object has an identifier at or above this one
    ghost var gets: nat // how many page reads were issued
    ghost var ever: map<Key, Object> // every object created so far; what it holds beyond `objects` was collected

    ghost predicate Valid()
      reads this`objects, this`ever, this`nextId
    {
      Extends(objects, ever) && forall k :: k in ever ==> k.id < nextId
    }

    /** The collected objects. */
    ghost function Gone(): set<Key>
      reads this`objects, this`ever
    {
      ever.Keys - objects.Keys
    }

    lemma GoneWasThere()
      ensures Gone() <= ever.Keys
    {
    }

    constructor ()
      ensures Valid() && objects == ever == map[]
    {
      objects, nextId, gets, ever := map[], 0, 0, map[];
    }

    method FreshId() returns (id: nat)
      requires Valid()
      modifies this`nextId
      ensures Valid() && id == old(nextId) && nextId == id + 1
    {
      id := nextId;
      nextId := nextId + 1;
    }

    method Get(key: Key) returns (r: Result<Object>)
      modifies this`gets
      ensures gets == old(gets) + 1
      ensures r == if key in objects then Ok(objects[key]) else Err(NotFound)
    {
      gets := gets + 1;
      if key in objects {
        r := Ok(objects[key]);
      } else {
        r := Err(NotFound);
      }
    }

    method Head(key: Key) returns (r: Result<nat>)
      ensures r.Ok? <==> key in objects && objects[key].RecordObject?
      ensures r.Ok? ==> r.value == objects[key].byteLength
      ensures r.Err? ==> r.error == if key in objects then Invalid else NotFound
    {
      if key !in objects {
        r := Err(NotFound);
      } else if objects[key].RecordObject? {
        r := Ok(objects[key].byteLength);
      } else {
        r := Err(Invalid);
      }
    }

    /** Conditional create (If-None-Match: *). */
    method PutCreate(key: Key, body: Object) returns (r: Result<()>)
      requires Valid() && key.id < nextId && (key in ever ==> key in objects)
      modifies this`objects, this`ever
      ensures Valid() && Gone() == old(Gone())
      ensures ever == if r.Ok? then old(ever)[key := body] else old(ever)
      ensures r == if key in old(objects) then Err(AlreadyExists) else Ok(())
      ensures objects == if key in old(objects) then old(objects) else old(objects)[key := body]
    {
      if key in objects {
        r := Err(AlreadyExists);
      } else {
        objects, ever := objects[key := body], ever[key := body];
        r := Ok(());
      }
    }

    /** Deleting an object that is already gone succeeds as well. */
    method Delete(key: Key)
      modifies this`objects
      ensures objects == old(objects) - {key}
    {
      objects := objects - {key};
    }
  }
}
