/** IDMap and its iterators, working in place, each method tied to the operation on values it performs. */
module IdMaps {
  import opened IdTables
  import opened Options
  import opened Sequences
  import Tables = IdTables

  lemma Inhabited(s: set<Key>)
    ensures s == {} || exists k :: k in s
  {
    if forall k :: k !in s {
      assert s == {};
    }
  }

  lemma KeysInOrder<T>(data: map<Key, T>, order: seq<Key>)
    requires Stored(data, order) && forall k :: k in data ==> k in order
    ensures (set j | 0 <= j < |order| :: order[j]) == data.Keys
  {
    forall k | k in data
      ensures k in set j | 0 <= j < |order| :: order[j]
    {
      assert order[FirstIndex(order, k)] == k;
    }
  }

  class IdMap<T> {
    const owns: bool
    var iterationDepth: nat
    var removedIds: set<Key>
    var nextId: Key
    var data: map<Key, T>
    var order: seq<Key>
    ghost var added: multiset<T>
    ghost var deleted: multiset<T>

    ghost function State(): Table<T>
      reads this
    {
      Table(owns, iterationDepth, removedIds, nextId, data, order, added, deleted)
    }

    /** Holds even while ids that are gone are still marked. */
    ghost predicate Arranged()
      reads this
    {
      Distinct(order) && Stored(data, order) && forall k :: k in data ==> k in order
    }

    constructor (owns: bool)
      ensures State() == Start<T>(owns).table && Valid(State()) && Arranged()
    {
      this.owns := owns;
      iterationDepth := 0;
      removedIds := {};
      nextId := 1;
      data := map[];
      order := [];
      added := multiset{};
      deleted := multiset{};
    }

    /** The table puts the new entry wherever it likes: at `at`. */
    method Add(v: T) returns (id: Key, ghost at: nat)
      requires Valid(State()) && nextId !in data
      modifies this
      ensures at <= |old(order)| && id == old(nextId)
      ensures State() == Insert(old(State()), id, v, at).(nextId := id + 1) && Valid(State())
    {
      id := nextId;
      at := AddWithID(v, id);
      nextId := nextId + 1;
    }

    method AddWithID(v: T, id: Key) returns (ghost at: nat)
      requires Valid(State()) && id !in data
      modifies this
      ensures at <= |old(order)|
      ensures State() == Insert(old(State()), id, v, at) && Valid(State())
    {
      var place :| 0 <= place <= |order|;
      at := place;
      InsertValid(State(), id, v, place);
      data := data[id := v];
      order := order[..place] + [id] + order[place..];
      added := added + multiset{v};
    }

    method Remove(id: Key)
      requires Arranged()
      modifies this
      ensures State() == Tables.Remove(old(State()), id)
      ensures data - removedIds == old(data - removedIds) - {id}
    {
      ShownRemove(State(), id);
      if id !in data {
        return;
      }
      if iterationDepth == 0 {
        DropOne(State(), id);
        Release(data[id]);
        data := data - {id};
        order := Kept(order, {id});
      } else {
        removedIds := removedIds + {id};
      }
    }

    method Release(v: T)
      modifies this`deleted
      ensures deleted == if owns then old(deleted) + multiset{v} else old(deleted)
    {
      if owns {
        deleted := deleted + multiset{v};
      }
    }

    /** Deletes the pointers of all entries. */
    method DeleteEach()
      requires Arranged() && owns
      modifies this`deleted
      ensures deleted == old(deleted) + Bag(data, order)
    {
      var i := 0;
      while i < |order|
        invariant 0 <= i <= |order| && Stored(data, order[..i])
        invariant deleted == old(deleted) + Bag(data, order[..i])
      {
        BagNext(data, order, i);
        Release(data[order[i]]);
        i := i + 1;
      }
      assert order[..i] == order;
    }

    method ReleaseAll()
      requires Arranged()
      modifies this`data, this`order, this`deleted
      ensures State() == if owns then Drop(old(State()), old(data).Keys) else old(State())
    {
      hide Bag, Kept, Gone;
      if owns {
        DropAll(State(), order);
        DeleteEach();
        data := map[];
        order := [];
      }
    }

    method Clear()
      requires Arranged()
      modifies this
      ensures State() == Tables.Clear(old(State()))
      ensures data - removedIds == if owns || iterationDepth > 0 then map[] else old(data - removedIds)
    {
      ShownClear(State());
      if iterationDepth == 0 {
        ReleaseAll();
      } else {
        ghost var marked := removedIds;
        var i := 0;
        while i < |order|
          invariant 0 <= i <= |order|
          invariant State() == old(State()).(removed := removedIds)
          invariant removedIds == marked + set j | 0 <= j < i :: order[j]
        {
          removedIds := removedIds + {order[i]};
          i := i + 1;
        }
        KeysInOrder(data, order);
      }
    }

    method Lookup(id: Key) returns (v: Option<T>)
      ensures v == if id in data then Some(data[id]) else None
    {
      v := if id in data then Some(data[id]) else None;
    }

    method GetSize() returns (n: int)
      requires Valid(State())
      ensures n == |set k | k in data && k !in removedIds|
    {
      SizeCounts(State());
      n := |data| - |removedIds|;
    }

    method Compact()
      requires Arranged() && iterationDepth == 0
      modifies this
      ensures State() == Tables.Compact(old(State()))
    {
      ghost var t := State();
      var left := removedIds;
      DropNothing(t);
      while left != {}
        invariant left <= t.removed && removedIds == t.removed && iterationDepth == 0
        invariant Arranged() && State() == Drop(t, t.removed - left)
        decreases left
      {
        Inhabited(left);
        var id :| id in left;
        DropTwice(t, t.removed - left, {id});
        assert t.removed - left + {id} == t.removed - (left - {id});
        ArrangedAfter(id);
        if id !in data {
          DropAbsent(State(), id);
        }
        Remove(id);
        left := left - {id};
      }
      assert t.removed - left == t.removed;
      removedIds := {};
    }

    lemma ArrangedAfter(id: Key)
      requires Arranged()
      ensures Distinct(Kept(order, {id})) && Stored(data - {id}, Kept(order, {id}))
      ensures forall k :: k in data - {id} ==> k in Kept(order, {id})
    {
      KeptMembers(order, {id});
      StoredParts(data, order, {id});
    }

    /** The owner is destroyed; no iterator may live. */
    method Destroy()
      requires Valid(State()) && iterationDepth == 0
      modifies this
      ensures owns ==> deleted == added && data == map[]
      ensures !owns ==> deleted == old(deleted)
    {
      AllGone(order, data.Keys);
      assert (data - data.Keys).Keys == {};
      ReleaseAll();
    }
  }

  class MapIterator<T> {
    const idMap: IdMap<T>
    var iter: Option<Key>

    ghost predicate Valid()
      reads this, idMap
    {
      && IdTables.Valid(idMap.State()) && idMap.Arranged() && idMap.iterationDepth > 0
      && (iter.Some? ==> iter.value in idMap.order)
    }

    constructor (idMap: IdMap<T>)
      requires IdTables.Valid(idMap.State()) && idMap.Arranged()
      modifies idMap
      ensures this.idMap == idMap && Valid()
      ensures idMap.State() == Opened(old(idMap.State())) && iter == Settle(old(idMap.State()), 0)
    {
      this.idMap := idMap;
      iter := None;
      new;
      idMap.iterationDepth := idMap.iterationDepth + 1;
      SkipRemovedEntries(0);
    }

    constructor CopyOf(other: MapIterator<T>)
      requires other.Valid()
      modifies other.idMap
      ensures idMap == other.idMap && Valid()
      ensures idMap.State() == Opened(old(other.idMap.State()))
      ensures iter == Settle(old(other.idMap.State()), IndexOf(old(other.idMap.State()), other.iter))
    {
      idMap := other.idMap;
      iter := None;
      new;
      var i := if other.iter.None? then |idMap.order| else FirstIndex(idMap.order, other.iter.value);
      idMap.iterationDepth := idMap.iterationDepth + 1;
      SkipRemovedEntries(i);
    }

    method SkipRemovedEntries(from: nat)
      requires from <= |idMap.order|
      modifies this
      ensures iter == Settle(idMap.State(), from)
    {
      var i := from;
      while i < |idMap.order| && idMap.order[i] in idMap.removedIds
        invariant from <= i <= |idMap.order|
        invariant SkipRemoved(idMap.State(), from) == SkipRemoved(idMap.State(), i)
      {
        i := i + 1;
      }
      iter := if i == |idMap.order| then None else Some(idMap.order[i]);
    }

    method IsAtEnd() returns (b: bool)
      ensures b == iter.None?
    {
      b := iter.None?;
    }

    method GetCurrentValue() returns (v: T)
      requires Valid() && iter.Some?
      ensures iter.value in idMap.data && v == idMap.data[iter.value]
    {
      assert idMap.order[FirstIndex(idMap.order, iter.value)] == iter.value;
      v := idMap.data[iter.value];
    }

    method Advance()
      requires Valid() && iter.Some?
      modifies this
      ensures Valid() && iter == Settle(idMap.State(), IndexOf(idMap.State(), old(iter)) + 1)
    {
      SkipRemovedEntries(FirstIndex(idMap.order, iter.value) + 1);
    }

    /** The iterator goes; the last one to go compacts the map. */
    method Destroy()
      requires Valid()
      modifies idMap
      ensures idMap.State() == Closed(old(idMap.State())) && IdTables.Valid(idMap.State())
    {
      ClosedValid(idMap.State());
      idMap.iterationDepth := idMap.iterationDepth - 1;
      if idMap.iterationDepth == 0 {
        idMap.Compact();
      }
    }
  }
}
