/** Object ids: a 32-bit counter, ids recycled through a stack, deletion in two steps. One manager on one thread. */
module ObjectIds {
  import opened Sequences
  import opened Wrappers

  const ID_LIMIT: nat := 0x1_0000_0000

  class Object {
    const id: nat
    var marked: bool

    constructor (id: nat)
      ensures this.id == id && !marked
    {
      this.id, marked := id, false;
    }
  }

  /** The ids of a list of objects, in order. */
  function Ids(s: seq<Object>): (r: seq<nat>)
    ensures |r| == |s| && forall i :: 0 <= i < |r| ==> r[i] == s[i].id
  {
    if s == [] then [] else Ids(s[..|s| - 1]) + [s[|s| - 1].id]
  }

  class ObjectManager {
    var objects: map<nat, Object>
    var active: set<Object>
    var markedObjects: seq<Object>
    var openIds: seq<nat>
    var nextId: nat
    /** Every object this manager ever made, and whether the counter has run over. */
    ghost var created: set<Object>
    ghost var wrapped: bool

    constructor ()
      ensures Valid() && objects == map[] && created == {} && openIds == [] && markedObjects == []
    {
      objects, active, markedObjects, openIds, nextId := map[], {}, [], [], 1;
      created, wrapped := {}, false;
    }

    /** The ids handed out so far. */
    ghost predicate Issued(id: nat)
      reads this`nextId, this`wrapped
    {
      1 <= id < if wrapped then ID_LIMIT else nextId
    }

    ghost predicate Live(o: Object)
      reads this`objects
    {
      o.id in objects && objects[o.id] == o
    }

    /**
      Live and recycled ids are disjoint, without duplicates, and together the ids issued so far. The live
      objects with the flag are those waiting for deletion; what is no longer live keeps its flag.
     */
    ghost predicate Valid()
      reads this, created`marked
    {
      && nextId < ID_LIMIT && (!wrapped ==> nextId >= 1)
      && (forall id :: id in objects ==> objects[id].id == id && objects[id] in created && objects[id] in active)
      && (forall o :: o in active ==> Live(o))
      && NoDup(openIds) && (forall i :: 0 <= i < |openIds| ==> openIds[i] !in objects)
      && (forall id: nat :: Issued(id) <==> id in objects || id in openIds)
      && NoDup(markedObjects)
      && (forall i :: 0 <= i < |markedObjects| ==> Live(markedObjects[i]) && markedObjects[i].marked)
      && (forall o :: o in created && o.marked && Live(o) ==> o in markedObjects)
      && (forall o :: o in created && !Live(o) ==> o.marked)
    }

    /** `Create`: an object with an id no live object has; none exactly when all ids belong to live objects. */
    method Create() returns (o: Option<Object>)
      requires Valid()
      modifies this
      ensures Valid()
      ensures o == None <==> forall id: nat :: 1 <= id < ID_LIMIT ==> id in old(objects)
      ensures o == None ==> objects == old(objects) && openIds == old(openIds) && created == old(created)
      ensures o.Some? ==> fresh(o.value) && !o.value.marked && 1 <= o.value.id < ID_LIMIT && o.value.id !in old(objects)
      ensures o.Some? ==> objects == old(objects)[o.value.id := o.value] && created == old(created) + {o.value}
      ensures o.Some? ==> o.value.id == if old(openIds) != [] then old(openIds)[|old(openIds)| - 1] else old(nextId)
      ensures markedObjects == old(markedObjects)
    {
      var id := GetNextObjectId();
      if id == 0 {
        return None;
      }
      if id in objects {
        return None;
      }
      var made := new Object(id);
      objects := objects[id := made];
      active := active + {made};
      created := created + {made};
      return Some(made);
    }

    /** The last recycled id, or the counter. The state in between issues the id to nobody yet. */
    method GetNextObjectId() returns (id: nat)
      requires Valid()
      modifies this`openIds, this`nextId, this`wrapped
      ensures nextId < ID_LIMIT && (!wrapped ==> nextId >= 1) && NoDup(openIds) && id < ID_LIMIT
      ensures forall i :: 0 <= i < |openIds| ==> openIds[i] !in objects && openIds[i] != id
      ensures forall i: nat :: Issued(i) <==> i in objects || i in openIds || (i == id && id != 0)
      ensures if old(openIds) != [] then id == old(openIds)[|old(openIds)| - 1] && nextId == old(nextId)
              else id == old(nextId) && nextId == (old(nextId) + 1) % ID_LIMIT
      ensures id == 0 || id in objects ==> openIds == old(openIds)
      ensures id == 0 || id in objects <==> forall i: nat :: 1 <= i < ID_LIMIT ==> i in objects
    {
      if openIds != [] {
        id := openIds[|openIds| - 1];
        assert id in openIds;
        ghost var was := openIds;
        openIds := openIds[..|openIds| - 1];
        assert was == openIds + [id];
      } else {
        id := nextId;
        if wrapped {
          assert forall i: nat :: 1 <= i < ID_LIMIT ==> Issued(i);
        } else {
          assert !Issued(id);
        }
        wrapped := wrapped || nextId == ID_LIMIT - 1;
        nextId := (nextId + 1) % ID_LIMIT;
      }
    }

    /** `Object::MarkForDeletion`: the manager looks at the flag before it is set. */
    method MarkForDeletion(o: Object)
      requires Valid() && o in created
      modifies this`markedObjects, o`marked
      ensures Valid() && o.marked
      ensures markedObjects == if old(o.marked) then old(markedObjects) else old(markedObjects) + [o]
    {
      if !o.marked {
        markedObjects := markedObjects + [o];
      }
      o.marked := true;
    }

    /** The end of `Update`: every marked object is dropped and its id returned, once. */
    method DeleteMarked()
      requires Valid()
      modifies this`objects, this`active, this`openIds, this`markedObjects
      ensures Valid() && markedObjects == [] && openIds == old(openIds) + Ids(old(markedObjects))
      ensures forall id :: id in objects <==> id in old(objects) && !old(objects)[id].marked
      ensures forall id :: id in objects ==> objects[id] == old(objects)[id]
    {
      if markedObjects != [] {
        EraseMarked();
        markedObjects := [];
        Cleared();
      } else {
        assert openIds + Ids([]) == openIds;
        assert forall id :: id in objects && objects[id].marked ==> objects[id] in markedObjects;
      }
    }

    twostate lemma Cleared()
      requires old(Valid()) && markedObjects == [] && openIds == old(openIds) + Ids(old(markedObjects))
      requires created == old(created) && nextId == old(nextId) && wrapped == old(wrapped)
      requires forall id :: id in objects <==> id in old(objects) && old(objects)[id] !in old(markedObjects)
      requires forall id :: id in objects ==> objects[id] == old(objects)[id]
      requires forall o :: o in active <==> o in old(active) && o !in old(markedObjects)
      requires forall o :: o in created ==> o.marked == old(o.marked)
      ensures Valid()
      ensures forall id :: id in objects <==> id in old(objects) && !old(objects)[id].marked
    {
      hide Ids;
      Returned(old(markedObjects));
      forall id | id in old(objects)
        ensures old(objects)[id].marked <==> old(objects)[id] in old(markedObjects)
      {
        assert old(Live(objects[id]));
      }
    }

    /** The loop over the marked objects. */
    method EraseMarked()
      requires forall id :: id in objects ==> objects[id].id == id
      requires NoDup(markedObjects) && forall i :: 0 <= i < |markedObjects| ==> Live(markedObjects[i])
      modifies this`objects, this`active, this`openIds
      ensures openIds == old(openIds) + Ids(markedObjects)
      ensures forall id :: id in objects <==> id in old(objects) && old(objects)[id] !in markedObjects
      ensures forall id :: id in objects ==> objects[id] == old(objects)[id]
      ensures forall o :: o in active <==> o in old(active) && o !in markedObjects
    {
      for index := 0 to |markedObjects|
        invariant openIds == old(openIds) + Ids(markedObjects[..index])
        invariant forall id :: id in objects <==> id in old(objects) && old(objects)[id] !in markedObjects[..index]
        invariant forall id :: id in objects ==> objects[id] == old(objects)[id]
        invariant forall o :: o in active <==> o in old(active) && o !in markedObjects[..index]
      {
        var dead := markedObjects[index];
        assert markedObjects[..index + 1] == markedObjects[..index] + [dead];
        IdsGrow(markedObjects, index);
        assert old(Live(markedObjects[index]));
        Delete(dead);
      }
      assert markedObjects[..|markedObjects|] == markedObjects;
    }

    /** One object leaves the active set and the id map, and its id becomes available. */
    method Delete(dead: Object)
      requires Live(dead) && forall id :: id in objects ==> objects[id].id == id
      modifies this`objects, this`active, this`openIds
      ensures active == old(active) - {dead} && openIds == old(openIds) + [dead.id]
      ensures forall id :: id in objects <==> id in old(objects) && old(objects)[id] != dead
      ensures forall id :: id in objects ==> objects[id] == old(objects)[id]
    {
      active := active - {dead};
      objects := objects - {dead.id};
      openIds := openIds + [dead.id];
    }

    /** Distinct live objects have distinct ids, none of them recycled. */
    twostate lemma Returned(list: seq<Object>)
      requires old(Valid()) && list == old(markedObjects)
      ensures NoDup(old(openIds) + Ids(list))
      ensures forall id :: id in old(openIds) + Ids(list) <==>
                id in old(openIds) || (id in old(objects) && old(objects)[id] in list)
    {
      var ids := Ids(list);
      forall i, j | 0 <= i < j < |ids|
        ensures ids[i] != ids[j]
      {
        assert old(Live(list[i])) && old(Live(list[j]));
      }
      forall i | 0 <= i < |ids|
        ensures ids[i] !in old(openIds) && ids[i] in old(objects) && old(objects)[ids[i]] == list[i]
      {
        assert old(Live(list[i]));
      }
      forall id | id in old(objects) && old(objects)[id] in list
        ensures id in ids
      {
        var i :| 0 <= i < |list| && list[i] == old(objects)[id];
        assert ids[i] == id;
      }
    }
  }

  lemma IdsGrow(s: seq<Object>, k: nat)
    requires k < |s|
    ensures Ids(s[..k + 1]) == Ids(s[..k]) + [s[k].id]
  {
    assert s[..k + 1][..k] == s[..k];
  }
}
