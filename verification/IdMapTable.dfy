/**
 Pointers by id, with removals put off while iterators live, and pointers deleted exactly once when the
 map owns them: the operations on values, runs of them, and what runs keep.
 */
module IdTables {
  import opened Options
  import opened Sequences

  type Key = int

  /**
   The map: its hash table as ids in the order an iterator meets them, the ids marked for removal, and
   the history of the pointers added and deleted.
   */
  datatype Table<T> = Table(
    owns: bool,
    depth: nat,
    removed: set<Key>,
    nextId: Key,
    data: map<Key, T>,
    order: seq<Key>,
    added: multiset<T>,
    deleted: multiset<T>)

  predicate Distinct(s: seq<Key>) {
    forall i, j :: 0 <= i < j < |s| ==> s[i] != s[j]
  }

  predicate Stored<T>(data: map<Key, T>, ids: seq<Key>) {
    forall i :: 0 <= i < |ids| ==> ids[i] in data
  }

  /** The pointers of the ids `ids`. */
  function Bag<T>(data: map<Key, T>, ids: seq<Key>): multiset<T>
    requires Stored(data, ids)
  {
    if |ids| == 0 then multiset{} else multiset{data[ids[0]]} + Bag(data, ids[1..])
  }

  ghost predicate Wellformed<T>(t: Table<T>) {
    && Distinct(t.order) && Stored(t.data, t.order) && (forall k :: k in t.data ==> k in t.order)
    && t.removed <= t.data.Keys
    && (t.depth == 0 ==> t.removed == {})
  }

  /** An owning map has deleted or still holds each pointer it was given, once for each time. */
  ghost predicate Conserved<T>(t: Table<T>)
    requires Wellformed(t)
  {
    t.owns ==> t.added == t.deleted + Bag(t.data, t.order)
  }

  ghost predicate Valid<T>(t: Table<T>) {
    Wellformed(t) && Conserved(t)
  }

  // ---------- Operations ----------

  function Insert<T>(t: Table<T>, id: Key, v: T, at: nat): Table<T>
    requires at <= |t.order|
  {
    t.(data := t.data[id := v], order := t.order[..at] + [id] + t.order[at..], added := t.added + multiset{v})
  }

  function Kept(s: seq<Key>, gone: set<Key>): seq<Key> {
    if |s| == 0 then [] else if s[0] in gone then Kept(s[1..], gone) else [s[0]] + Kept(s[1..], gone)
  }

  function Gone(s: seq<Key>, gone: set<Key>): seq<Key> {
    if |s| == 0 then [] else if s[0] in gone then [s[0]] + Gone(s[1..], gone) else Gone(s[1..], gone)
  }

  /** The entries of `ids` leave the table; an owning map deletes their pointers. */
  function Drop<T>(t: Table<T>, ids: set<Key>): Table<T>
    requires Stored(t.data, t.order)
  {
    StoredParts(t.data, t.order, ids);
    t.(data := t.data - ids,
       order := Kept(t.order, ids),
       deleted := if t.owns then t.deleted + Bag(t.data, Gone(t.order, ids)) else t.deleted)
  }

  /** Removing an id that is not there does nothing. */
  function Remove<T>(t: Table<T>, id: Key): Table<T>
    requires Stored(t.data, t.order)
  {
    if id !in t.data then t
    else if t.depth == 0 then Drop(t, {id})
    else t.(removed := t.removed + {id})
  }

  /** At depth 0 a map that does not own its pointers keeps its entries. */
  function Clear<T>(t: Table<T>): Table<T>
    requires Stored(t.data, t.order)
  {
    if t.depth > 0 then t.(removed := t.removed + t.data.Keys)
    else if t.owns then Drop(t, t.data.Keys)
    else t
  }

  function Size<T>(t: Table<T>): int {
    |t.data| - |t.removed|
  }

  function Compact<T>(t: Table<T>): Table<T>
    requires Stored(t.data, t.order)
  {
    Drop(t, t.removed).(removed := {})
  }

  // ---------- What the operations keep ----------

  lemma {:induction false} StoredParts<T>(data: map<Key, T>, s: seq<Key>, gone: set<Key>)
    requires Stored(data, s)
    ensures Stored(data, Gone(s, gone)) && Stored(data, Kept(s, gone)) && Stored(data - gone, Kept(s, gone))
  {
    if |s| > 0 {
      StoredParts(data, s[1..], gone);
    }
  }

  lemma {:induction false} KeptMembers(s: seq<Key>, gone: set<Key>)
    requires Distinct(s)
    ensures Distinct(Kept(s, gone))
    ensures forall k :: k in Kept(s, gone) <==> k in s && k !in gone
  {
    if |s| > 0 {
      KeptMembers(s[1..], gone);
      assert forall k :: k in s <==> k == s[0] || k in s[1..];
      var r := Kept(s[1..], gone);
      forall j | 0 <= j < |r|
        ensures r[j] != s[0]
      {
        assert r[j] in s[1..];
      }
    }
  }

  lemma BagCons<T>(data: map<Key, T>, k: Key, s: seq<Key>)
    requires k in data && Stored(data, s)
    ensures Stored(data, [k] + s) && Bag(data, [k] + s) == multiset{data[k]} + Bag(data, s)
  {
    assert ([k] + s)[1..] == s;
  }

  lemma {:induction false} BagSplits<T>(data: map<Key, T>, s: seq<Key>, gone: set<Key>)
    requires Stored(data, s) && Stored(data, Kept(s, gone)) && Stored(data, Gone(s, gone))
    ensures Bag(data, s) == Bag(data, Kept(s, gone)) + Bag(data, Gone(s, gone))
  {
    if |s| > 0 {
      StoredParts(data, s[1..], gone);
      BagSplits(data, s[1..], gone);
      BagSplitsHead(data, s[0], s[1..], gone);
      assert [s[0]] + s[1..] == s;
    }
  }

  lemma BagSplitsHead<T>(data: map<Key, T>, k: Key, s: seq<Key>, gone: set<Key>)
    requires k in data && Stored(data, s) && Stored(data, Kept(s, gone)) && Stored(data, Gone(s, gone))
    requires Bag(data, s) == Bag(data, Kept(s, gone)) + Bag(data, Gone(s, gone))
    ensures Stored(data, [k] + s) && Stored(data, Kept([k] + s, gone)) && Stored(data, Gone([k] + s, gone))
    ensures Bag(data, [k] + s) == Bag(data, Kept([k] + s, gone)) + Bag(data, Gone([k] + s, gone))
  {
    hide Bag;
    assert ([k] + s)[1..] == s;
    BagCons(data, k, s);
    BagCons(data, k, Kept(s, gone));
    BagCons(data, k, Gone(s, gone));
  }

  lemma {:induction false} BagSame<T>(data: map<Key, T>, other: map<Key, T>, s: seq<Key>)
    requires Stored(data, s) && Stored(other, s)
    requires forall i :: 0 <= i < |s| ==> data[s[i]] == other[s[i]]
    ensures Bag(data, s) == Bag(other, s)
  {
    if |s| > 0 {
      BagSame(data, other, s[1..]);
    }
  }

  lemma {:induction false} BagInsert<T>(data: map<Key, T>, s: seq<Key>, id: Key, v: T, at: nat)
    requires Stored(data, s) && id !in data && at <= |s|
    ensures Stored(data[id := v], s[..at] + [id] + s[at..])
    ensures Bag(data[id := v], s[..at] + [id] + s[at..]) == Bag(data, s) + multiset{v}
    decreases |s|
  {
    hide Bag;
    var r := s[..at] + [id] + s[at..];
    if at == 0 {
      assert r == [id] + s;
      BagSame(data, data[id := v], s);
      BagCons(data[id := v], id, s);
    } else {
      assert r == [s[0]] + (s[1..][..at - 1] + [id] + s[1..][at - 1..]) && s == [s[0]] + s[1..];
      BagInsert(data, s[1..], id, v, at - 1);
      BagCons(data, s[0], s[1..]);
      BagCons(data[id := v], s[0], s[1..][..at - 1] + [id] + s[1..][at - 1..]);
    }
  }

  lemma {:induction false} DropValid<T>(t: Table<T>, ids: set<Key>)
    requires Valid(t) && ids <= t.data.Keys
    ensures Valid(Drop(t, ids).(removed := t.removed - ids))
  {
    hide Distinct;
    StoredParts(t.data, t.order, ids);
    KeptMembers(t.order, ids);
    BagSplits(t.data, t.order, ids);
    DropSame(t.data, t.order, ids);
    var r := Drop(t, ids).(removed := t.removed - ids);
    assert Wellformed(r);
  }

  lemma DropSame<T>(data: map<Key, T>, s: seq<Key>, ids: set<Key>)
    requires Stored(data, s)
    ensures Stored(data, Kept(s, ids)) && Stored(data - ids, Kept(s, ids))
    ensures Bag(data, Kept(s, ids)) == Bag(data - ids, Kept(s, ids))
  {
    StoredParts(data, s, ids);
    BagSame(data, data - ids, Kept(s, ids));
  }

  lemma {:induction false} InsertValid<T>(t: Table<T>, id: Key, v: T, at: nat)
    requires Valid(t) && id !in t.data && at <= |t.order|
    ensures Valid(Insert(t, id, v, at))
  {
    BagInsert(t.data, t.order, id, v, at);
    var r := Insert(t, id, v, at);
    assert forall k :: k in r.order <==> k == id || k in t.order;
    InsertDistinct(t.order, id, at);
  }

  lemma InsertDistinct(s: seq<Key>, id: Key, at: nat)
    requires Distinct(s) && id !in s && at <= |s|
    ensures Distinct(s[..at] + [id] + s[at..])
  {
  }

  lemma {:induction false} RemoveValid<T>(t: Table<T>, id: Key)
    requires Valid(t)
    ensures Valid(Remove(t, id))
  {
    if id in t.data && t.depth == 0 {
      DropValid(t, {id});
    }
  }

  lemma {:induction false} ClearValid<T>(t: Table<T>)
    requires Valid(t)
    ensures Valid(Clear(t))
  {
    if t.depth == 0 {
      DropValid(t, t.data.Keys);
    }
  }

  /** The size counts exactly the ids that are not marked for removal. */
  lemma {:induction false} SizeCounts<T>(t: Table<T>)
    requires Wellformed(t)
    ensures Size(t) == |set k | k in t.data && k !in t.removed|
  {
    assert t.data.Keys * t.removed == t.removed;
    assert (set k | k in t.data && k !in t.removed) == t.data.Keys - t.removed;
  }

  /** `Clear` leaves nothing, except that it has no effect at all on a map that does not own and is not iterated. */
  lemma {:induction false} ClearEmpties<T>(t: Table<T>)
    requires Valid(t)
    ensures Size(Clear(t)) == 0 <==> t.owns || t.depth > 0 || Size(t) == 0
  {
    assert t.data.Keys * t.removed == t.removed;
    if t.depth > 0 {
      assert t.removed + t.data.Keys == t.data.Keys;
    } else if t.owns {
      assert (t.data - t.data.Keys).Keys == {};
    }
  }

  // ---------- Iterators ----------

  /** The first index from `i` on whose id is not marked for removal. */
  function SkipRemoved<T>(t: Table<T>, i: nat): (j: nat)
    requires i <= |t.order|
    ensures i <= j <= |t.order|
    ensures j < |t.order| ==> t.order[j] !in t.removed
    ensures forall k :: i <= k < j ==> t.order[k] in t.removed
    decreases |t.order| - i
  {
    if i < |t.order| && t.order[i] in t.removed then SkipRemoved(t, i + 1) else i
  }

  /** An iterator holds the entry it is on, or none at the end. */
  function EntryAt<T>(t: Table<T>, i: nat): Option<Key>
    requires i <= |t.order|
  {
    if i == |t.order| then None else Some(t.order[i])
  }

  /** Where the entry of an iterator lies. */
  function IndexOf<T>(t: Table<T>, cursor: Option<Key>): (i: nat)
    ensures i <= |t.order|
  {
    if cursor.None? then |t.order| else FirstIndex(t.order, cursor.value)
  }

  /** Where an iterator goes when set on index `i`. */
  function Settle<T>(t: Table<T>, i: nat): Option<Key>
    requires i <= |t.order|
  {
    EntryAt(t, SkipRemoved(t, i))
  }

  function Opened<T>(t: Table<T>): Table<T> {
    t.(depth := t.depth + 1)
  }

  function Closed<T>(t: Table<T>): Table<T>
    requires t.depth > 0 && Stored(t.data, t.order)
  {
    var r := t.(depth := t.depth - 1);
    if r.depth == 0 then Compact(r) else r
  }

  // ---------- Runs ----------

  type IteratorId = nat

  datatype World<T> = World(table: Table<T>, cursors: map<IteratorId, Option<Key>>)

  datatype Event<T> =
    | AddNew(v: T, at: nat)
    | AddWithId(id: Key, v: T, at: nat)
    | RemoveId(id: Key)
    | ClearAll
    | Begin(it: IteratorId)
    | CopyOf(from: IteratorId, it: IteratorId)
    | Advance(it: IteratorId)
    | End(it: IteratorId)

  ghost predicate Enabled<T>(w: World<T>, e: Event<T>) {
    && Stored(w.table.data, w.table.order)
    && match e
       case AddNew(_, at) => w.table.nextId !in w.table.data && at <= |w.table.order|
       case AddWithId(id, _, at) => id !in w.table.data && at <= |w.table.order|
       case RemoveId(_) => true
       case ClearAll => true
       case Begin(it) => it !in w.cursors
       case CopyOf(from, it) => from in w.cursors && it !in w.cursors
       case Advance(it) => it in w.cursors && w.cursors[it].Some? && w.cursors[it].value in w.table.order
       case End(it) => it in w.cursors && w.table.depth > 0
  }

  /** The index an event sets an iterator on, before it skips removed entries. */
  function Target<T>(w: World<T>, e: Event<T>): (i: nat)
    ensures i <= |w.table.order|
  {
    var t := w.table;
    match e
    case CopyOf(from, _) => if from in w.cursors then IndexOf(t, w.cursors[from]) else 0
    case Advance(it) =>
      if it !in w.cursors || w.cursors[it].None? then 0
      else
        var i := IndexOf(t, w.cursors[it]);
        if i < |t.order| then i + 1 else 0
    case _ => 0
  }

  ghost function Step<T>(w: World<T>, e: Event<T>): World<T>
    requires Enabled(w, e)
  {
    var t := w.table;
    match e
    case AddNew(v, at) => w.(table := Insert(t, t.nextId, v, at).(nextId := t.nextId + 1))
    case AddWithId(id, v, at) => w.(table := Insert(t, id, v, at))
    case RemoveId(id) => w.(table := Remove(t, id))
    case ClearAll => w.(table := Clear(t))
    case Begin(it) => World(Opened(t), w.cursors[it := Settle(t, Target(w, e))])
    case CopyOf(_, it) => World(Opened(t), w.cursors[it := Settle(t, Target(w, e))])
    case Advance(it) => w.(cursors := w.cursors[it := Settle(t, Target(w, e))])
    case End(it) => World(Closed(t), w.cursors - {it})
  }

  ghost predicate Legal<T>(w: World<T>, events: seq<Event<T>>)
    decreases |events|
  {
    |events| == 0 || (Enabled(w, events[0]) && Legal(Step(w, events[0]), events[1..]))
  }

  ghost function Run<T>(w: World<T>, events: seq<Event<T>>): World<T>
    requires Legal(w, events)
    decreases |events|
  {
    if |events| == 0 then w else Run(Step(w, events[0]), events[1..])
  }

  function Start<T>(owns: bool): World<T> {
    World(Table(owns, 0, {}, 1, map[], [], multiset{}, multiset{}), map[])
  }

  /** The depth counts the iterators, and every iterator is on an entry that is still stored. */
  ghost predicate Inv<T>(w: World<T>) {
    && Valid(w.table) && w.table.depth == |w.cursors|
    && (forall it :: it in w.cursors && w.cursors[it].Some? ==> w.cursors[it].value in w.table.order)
  }

  lemma {:induction false} StepInv<T>(w: World<T>, e: Event<T>)
    requires Inv(w) && Enabled(w, e)
    ensures Inv(Step(w, e))
  {
    hide Valid, Inv, Enabled, Step;
    if e.Begin? || e.CopyOf? || e.Advance? {
      IterateInv(w, e);
    } else if e.End? {
      EndInv(w, e);
    } else {
      ChangeInv(w, e);
    }
  }

  lemma {:induction false} ChangeInv<T>(w: World<T>, e: Event<T>)
    requires Inv(w) && Enabled(w, e) && (e.AddNew? || e.AddWithId? || e.RemoveId? || e.ClearAll?)
    ensures Inv(Step(w, e))
  {
    hide Valid, Distinct, Target, Kept, Gone, Bag;
    var t := w.table;
    NoCursors(w);
    match e
    case AddNew(v, at) => InsertKeepsValid(t, t.nextId, v, at); InsertMembers(t.order, t.nextId, at);
    case AddWithId(id, v, at) => InsertKeepsValid(t, id, v, at); InsertMembers(t.order, id, at);
    case RemoveId(id) => RemoveValid(t, id);
    case ClearAll => ClearValid(t);
  }

  lemma {:induction false} IterateInv<T>(w: World<T>, e: Event<T>)
    requires Inv(w) && Enabled(w, e) && (e.Begin? || e.CopyOf? || e.Advance?)
    ensures Inv(Step(w, e))
  {
    hide Valid, Target, SkipRemoved;
    var cursor := Settle(w.table, Target(w, e));
    OpenedValid(w.table);
    if e.Advance? {
      Moved(w.cursors, e.it, cursor);
    } else {
      Joined(w.cursors, e.it, cursor);
    }
  }

  lemma {:induction false} EndInv<T>(w: World<T>, e: Event<T>)
    requires Inv(w) && Enabled(w, e) && e.End?
    ensures Inv(Step(w, e))
  {
    hide Valid, Target, Kept, Gone, Bag;
    ClosedValid(w.table);
    Left(w.cursors, e.it);
  }

  lemma InsertKeepsValid<T>(t: Table<T>, id: Key, v: T, at: nat)
    requires Valid(t) && id !in t.data && at <= |t.order|
    ensures Valid(Insert(t, id, v, at)) && Valid(Insert(t, id, v, at).(nextId := t.nextId + 1))
  {
    InsertValid(t, id, v, at);
  }

  lemma InsertMembers(s: seq<Key>, id: Key, at: nat)
    requires at <= |s|
    ensures forall k :: k in s ==> k in s[..at] + [id] + s[at..]
  {
    assert s == s[..at] + s[at..];
  }

  lemma NoCursors<T>(w: World<T>)
    requires w.table.depth == |w.cursors|
    ensures w.table.depth == 0 ==> w.cursors == map[]
  {
    if w.table.depth == 0 {
      assert w.cursors.Keys == {};
    }
  }

  lemma OpenedValid<T>(t: Table<T>)
    requires Valid(t)
    ensures Valid(Opened(t))
  {
  }

  lemma {:induction false} ClosedValid<T>(t: Table<T>)
    requires Valid(t) && t.depth > 0
    ensures Valid(Closed(t))
  {
    DropValid(t, t.removed);
    assert t.removed - t.removed == {};
  }

  lemma Joined<V>(m: map<IteratorId, V>, it: IteratorId, v: V)
    requires it !in m
    ensures |m[it := v]| == |m| + 1
  {
    assert m[it := v].Keys == m.Keys + {it};
  }

  lemma Moved<V>(m: map<IteratorId, V>, it: IteratorId, v: V)
    requires it in m
    ensures |m[it := v]| == |m|
  {
    assert m[it := v].Keys == m.Keys;
  }

  lemma Left<V>(m: map<IteratorId, V>, it: IteratorId)
    requires it in m
    ensures |m - {it}| == |m| - 1 && (|m| == 1 ==> m - {it} == map[])
  {
    assert (m - {it}).Keys == m.Keys - {it};
  }

  lemma {:induction false} RunInv<T>(w: World<T>, events: seq<Event<T>>)
    requires Inv(w) && Legal(w, events)
    ensures Inv(Run(w, events))
    decreases |events|
  {
    hide Inv, Step, Enabled;
    if |events| > 0 {
      StepInv(w, events[0]);
      RunInv(Step(w, events[0]), events[1..]);
    }
  }

  /** A pointer is deleted only when no iterator lives, or at the moment the last one ends. */
  lemma {:induction false} DeletedWithoutIterators<T>(w: World<T>, e: Event<T>)
    requires Inv(w) && Enabled(w, e)
    ensures Step(w, e).table.deleted != w.table.deleted ==> Step(w, e).cursors == map[]
  {
    hide Valid;
    NoCursors(w);
    if e.End? {
      Left(w.cursors, e.it);
    }
  }

  /**
   After any run the ids marked for removal are stored ids and there are none without iterators, the
   size counts the ids not marked, and every pointer an owning map was given is deleted or stored,
   once for each time it was added; without iterators destruction deletes just the stored ones.
   */
  lemma {:induction false} EveryRun<T>(owns: bool, events: seq<Event<T>>)
    requires Legal(Start(owns), events)
    ensures var t := Run(Start(owns), events).table;
            && Wellformed(t) && t.owns == owns
            && Size(t) == |set k | k in t.data && k !in t.removed|
            && (owns ==> t.added == t.deleted + Bag(t.data, t.order))
            && (owns ==> Drop(t, t.data.Keys).deleted == t.added && Drop(t, t.data.Keys).data == map[])
  {
    hide Legal, Run;
    var w := Start<T>(owns);
    assert Inv(w);
    RunInv(w, events);
    SameOwner(w, events);
    var t := Run(w, events).table;
    SizeCounts(t);
    AllGone(t.order, t.data.Keys);
    assert (t.data - t.data.Keys).Keys == {};
  }

  lemma {:induction false} SameOwner<T>(w: World<T>, events: seq<Event<T>>)
    requires Legal(w, events)
    ensures Run(w, events).table.owns == w.table.owns
    decreases |events|
  {
    if |events| > 0 {
      SameOwner(Step(w, events[0]), events[1..]);
    }
  }

  lemma {:induction false} AllGone(s: seq<Key>, gone: set<Key>)
    requires forall i :: 0 <= i < |s| ==> s[i] in gone
    ensures Gone(s, gone) == s
  {
    if |s| > 0 {
      AllGone(s[1..], gone);
    }
  }

  // ---------- The plain map that it stands for ----------

  /** A map that removes at once, with its iterators and the next id. */
  datatype Plain<T> = Plain(owns: bool, iterators: set<IteratorId>, nextId: Key, entries: map<Key, T>)

  /** `Clear` alone depends on more than the entries. */
  function PlainStep<T>(p: Plain<T>, e: Event<T>): Plain<T> {
    match e
    case AddNew(v, _) => p.(entries := p.entries[p.nextId := v], nextId := p.nextId + 1)
    case AddWithId(id, v, _) => p.(entries := p.entries[id := v])
    case RemoveId(id) => p.(entries := p.entries - {id})
    case ClearAll => if p.owns || p.iterators != {} then p.(entries := map[]) else p
    case Begin(it) => p.(iterators := p.iterators + {it})
    case CopyOf(_, it) => p.(iterators := p.iterators + {it})
    case Advance(_) => p
    case End(it) => p.(iterators := p.iterators - {it})
  }

  function PlainRun<T>(p: Plain<T>, events: seq<Event<T>>): Plain<T>
    decreases |events|
  {
    if |events| == 0 then p else PlainRun(PlainStep(p, events[0]), events[1..])
  }

  function PlainStart<T>(owns: bool): Plain<T> {
    Plain(owns, {}, 1, map[])
  }

  /** The table as seen from outside. */
  ghost function Shown<T>(w: World<T>): Plain<T> {
    var t := w.table;
    Plain(t.owns, w.cursors.Keys, t.nextId, t.data - t.removed)
  }

  lemma {:induction false} StepShown<T>(w: World<T>, e: Event<T>)
    requires Inv(w) && Enabled(w, e)
    ensures Shown(Step(w, e)) == PlainStep(Shown(w), e)
  {
    hide Inv, Insert, Remove, Clear, Closed, Settle, Target;
    var t := w.table;
    InvMarks(w);
    match e {
      case AddNew(v, at) => ShownInsert(t, t.nextId, v, at);
      case AddWithId(id, v, at) => ShownInsert(t, id, v, at);
      case RemoveId(id) => ShownRemove(t, id);
      case ClearAll => ShownClear(t);
      case Begin(it) => assert w.cursors[it := Settle(t, Target(w, e))].Keys == w.cursors.Keys + {it};
      case CopyOf(_, it) => assert w.cursors[it := Settle(t, Target(w, e))].Keys == w.cursors.Keys + {it};
      case Advance(it) => assert w.cursors[it := Settle(t, Target(w, e))].Keys == w.cursors.Keys;
      case End(it) =>
        ShownClosed(t);
        assert (w.cursors - {it}).Keys == w.cursors.Keys - {it};
    }
  }

  lemma InvMarks<T>(w: World<T>)
    requires Inv(w)
    ensures w.table.removed <= w.table.data.Keys && (w.table.depth == 0 <==> w.cursors.Keys == {})
    ensures w.table.depth == 0 ==> w.table.removed == {}
  {
    hide Distinct, Bag;
    EmptyKeys(w.cursors);
  }

  lemma EmptyKeys<V>(m: map<IteratorId, V>)
    ensures m.Keys == {} <==> |m| == 0
  {
    assert |m| == |m.Keys|;
  }

  lemma ShownInsert<T>(t: Table<T>, id: Key, v: T, at: nat)
    requires t.removed <= t.data.Keys && id !in t.data && at <= |t.order|
    ensures var r := Insert(t, id, v, at);
            && r.data - r.removed == (t.data - t.removed)[id := v]
            && r.owns == t.owns && r.nextId == t.nextId
  {
  }

  lemma ShownClosed<T>(t: Table<T>)
    requires t.depth > 0 && Stored(t.data, t.order)
    ensures var r := Closed(t);
            && r.data - r.removed == t.data - t.removed
            && r.owns == t.owns && r.nextId == t.nextId
  {
    hide Kept, Gone, Bag;
    assert t.data - t.removed - {} == t.data - t.removed;
  }

  lemma ShownRemove<T>(t: Table<T>, id: Key)
    requires Stored(t.data, t.order)
    ensures var r := Remove(t, id);
            && r.data - r.removed == t.data - t.removed - {id}
            && r.owns == t.owns && r.nextId == t.nextId
  {
    hide Kept, Gone, Bag;
  }

  lemma ShownClear<T>(t: Table<T>)
    requires Stored(t.data, t.order)
    ensures var r := Clear(t);
            && r.data - r.removed == (if t.owns || t.depth > 0 then map[] else t.data - t.removed)
            && r.owns == t.owns && r.nextId == t.nextId
  {
    hide Kept, Gone, Bag;
    assert (t.data - t.data.Keys).Keys == {};
    if t.depth > 0 {
      assert (t.data - (t.removed + t.data.Keys)).Keys == {};
    } else if t.owns {
      assert (t.data - t.data.Keys - t.removed).Keys == {};
    }
  }

  lemma {:induction false} RunShown<T>(w: World<T>, events: seq<Event<T>>)
    requires Inv(w) && Legal(w, events)
    ensures Shown(Run(w, events)) == PlainRun(Shown(w), events)
    decreases |events|
  {
    hide Inv, Step, Enabled, PlainStep, Shown;
    if |events| > 0 {
      StepShown(w, events[0]);
      StepInv(w, events[0]);
      RunShown(Step(w, events[0]), events[1..]);
    }
  }

  /**
   In every run the map shows what a plain map with immediate removal would hold, and once no iterator is
   left it holds just that; an owning map has then deleted every pointer it was given but those.
   */
  lemma {:induction false} RefinesPlainMap<T>(owns: bool, events: seq<Event<T>>)
    requires Legal(Start(owns), events)
    ensures var w, p := Run(Start(owns), events), PlainRun(PlainStart(owns), events);
            && w.table.data - w.table.removed == p.entries
            && w.table.nextId == p.nextId && w.cursors.Keys == p.iterators
            && (p.iterators == {} ==> w.table.data == p.entries)
            && (owns && p.iterators == {} ==>
                  Stored(p.entries, w.table.order) && w.table.added == w.table.deleted + Bag(p.entries, w.table.order))
  {
    hide Legal, Run, PlainRun, Bag, Inv;
    StartInv<T>(owns);
    RunInv(Start(owns), events);
    RunShown(Start(owns), events);
    SameOwner(Start<T>(owns), events);
    var w := Run(Start<T>(owns), events);
    InvMarks(w);
    if w.table.depth == 0 {
      assert w.table.data - {} == w.table.data;
      InvConserves(w);
    }
  }

  lemma StartInv<T>(owns: bool)
    ensures Inv(Start<T>(owns)) && Shown(Start<T>(owns)) == PlainStart(owns)
  {
    var t := Start<T>(owns).table;
    assert t.data - t.removed == map[];
  }

  lemma InvConserves<T>(w: World<T>)
    requires Inv(w)
    ensures Stored(w.table.data, w.table.order)
    ensures w.table.owns ==> w.table.added == w.table.deleted + Bag(w.table.data, w.table.order)
  {
  }

  // ---------- A full iteration ----------

  /** An id an iterator came to, and whether it stopped there or skipped it. */
  datatype Reached = Reached(key: Key, visited: bool)

  /** What an iterator comes to when set on index `i`. */
  function Reaches<T>(t: Table<T>, i: nat): seq<Reached>
    requires i <= |t.order|
    decreases |t.order| - i
  {
    if i == |t.order| then []
    else if t.order[i] in t.removed then [Reached(t.order[i], false)] + Reaches(t, i + 1)
    else [Reached(t.order[i], true)]
  }

  function KeysOf(rs: seq<Reached>): (ks: seq<Key>)
    ensures |ks| == |rs|
  {
    seq(|rs|, i requires 0 <= i < |rs| => rs[i].key)
  }

  predicate Moves<T>(e: Event<T>, it: IteratorId) {
    (e.Begin? || e.CopyOf? || e.Advance?) && e.it == it
  }

  /** Everything iterator `it` comes to in a run. */
  ghost function Trace<T>(w: World<T>, events: seq<Event<T>>, it: IteratorId): seq<Reached>
    requires Legal(w, events)
    decreases |events|
  {
    if |events| == 0 then []
    else
      (if Moves(events[0], it) then Reaches(w.table, Target(w, events[0])) else [])
      + Trace(Step(w, events[0]), events[1..], it)
  }

  /** How many entries an iterator has come to. */
  function Passed<T>(t: Table<T>, cursor: Option<Key>): (n: nat)
    ensures n <= |t.order|
  {
    if IndexOf(t, cursor) < |t.order| then IndexOf(t, cursor) + 1 else |t.order|
  }

  lemma {:induction false} DistinctIndex<T>(t: Table<T>, j: nat)
    requires Distinct(t.order) && j < |t.order|
    ensures IndexOf(t, Some(t.order[j])) == j
  {
    FirstIndexUnique(t.order, t.order[j], j);
  }

  /** An iterator stops exactly at ids not marked when it comes to them, and comes to them in order. */
  lemma {:induction false} ReachesExact<T>(t: Table<T>, i: nat)
    requires Distinct(t.order) && i <= |t.order|
    ensures i <= Passed(t, Settle(t, i)) && KeysOf(Reaches(t, i)) == t.order[i..Passed(t, Settle(t, i))]
    ensures forall x :: x in Reaches(t, i) ==> (x.visited <==> x.key !in t.removed)
  {
    hide Distinct, Settle, Passed, KeysOf, Reaches;
    ReachesKeys(t, i);
    ReachesMarks(t, i);
  }

  lemma {:induction false} ReachesMarks<T>(t: Table<T>, i: nat)
    requires i <= |t.order|
    ensures forall x :: x in Reaches(t, i) ==> (x.visited <==> x.key !in t.removed)
    decreases |t.order| - i
  {
    if i < |t.order| && t.order[i] in t.removed {
      ReachesMarks(t, i + 1);
    }
  }

  lemma {:induction false} ReachesKeys<T>(t: Table<T>, i: nat)
    requires Distinct(t.order) && i <= |t.order|
    ensures i <= Passed(t, Settle(t, i)) && KeysOf(Reaches(t, i)) == t.order[i..Passed(t, Settle(t, i))]
    decreases |t.order| - i
  {
    hide FirstIndex, SkipRemoved, Distinct, Settle;
    SettleCases(t, i);
    if i < |t.order| {
      DistinctIndex(t, i);
      if t.order[i] in t.removed {
        ReachesKeys(t, i + 1);
        var n := Passed(t, Settle(t, i));
        assert KeysOf(Reaches(t, i)) == [t.order[i]] + KeysOf(Reaches(t, i + 1));
        assert t.order[i..n] == [t.order[i]] + t.order[i + 1..n];
      }
    }
  }

  lemma SettleCases<T>(t: Table<T>, i: nat)
    requires i <= |t.order|
    ensures i == |t.order| ==> Settle(t, i) == None
    ensures i < |t.order| ==> Settle(t, i) == if t.order[i] in t.removed then Settle(t, i + 1) else Some(t.order[i])
  {
  }

  /** The event is not an insertion, and does not end `it`. */
  predicate Steady<T>(e: Event<T>, it: IteratorId) {
    !e.AddNew? && !e.AddWithId? && !(e.End? && e.it == it) && !(e.Begin? && e.it == it) && !(e.CopyOf? && e.it == it)
  }

  /** While an iterator lives nothing leaves the table, and marks stay. */
  lemma {:induction false} SteadyStep<T>(w: World<T>, e: Event<T>, it: IteratorId)
    requires Inv(w) && Enabled(w, e) && it in w.cursors && Steady(e, it)
    ensures var next := Step(w, e);
            && it in next.cursors && next.table.order == w.table.order && w.table.removed <= next.table.removed
            && (!Moves(e, it) ==> next.cursors[it] == w.cursors[it])
            && (Moves(e, it) ==> w.cursors[it].Some? && Target(w, e) == Passed(w.table, w.cursors[it])
                                 && next.cursors[it] == Settle(w.table, Target(w, e)))
  {
    hide Valid, SkipRemoved, Kept, Gone, Bag;
    assert w.table.depth > 0 by {
      NoCursors(w);
    }
    if e.End? {
      Left(w.cursors, e.it);
      assert it in w.cursors - {e.it};
    }
  }

  lemma {:induction false} SessionTrace<T>(w: World<T>, events: seq<Event<T>>, it: IteratorId)
    requires Inv(w) && Legal(w, events) && it in w.cursors
    requires forall i :: 0 <= i < |events| ==> Steady(events[i], it)
    ensures var end := Run(w, events);
            && it in end.cursors && end.table.order == w.table.order && w.table.removed <= end.table.removed
            && Passed(w.table, w.cursors[it]) <= Passed(w.table, end.cursors[it])
            && KeysOf(Trace(w, events, it))
               == w.table.order[Passed(w.table, w.cursors[it])..Passed(w.table, end.cursors[it])]
            && (forall x :: x in Trace(w, events, it) ==>
                  && (x.visited ==> x.key !in w.table.removed)
                  && (!x.visited ==> x.key in end.table.removed))
    decreases |events|
  {
    hide Inv, Step, Enabled, Target, Passed, Reaches, Settle, Distinct, KeysOf;
    if |events| > 0 {
      var e, next := events[0], Step(w, events[0]);
      StepInv(w, e);
      SteadyStep(w, e, it);
      SessionTrace(next, events[1..], it);
      SameTable(w.table, next.table, next.cursors[it]);
      SameTable(w.table, next.table, Run(w, events).cursors[it]);
      if Moves(e, it) {
        InvDistinct(w);
        ReachesExact(w.table, Target(w, e));
        KeysJoin(Reaches(w.table, Target(w, e)), Trace(next, events[1..], it));
      } else {
        assert Trace(w, events, it) == Trace(next, events[1..], it);
      }
    } else {
      assert KeysOf([]) == [];
    }
  }

  lemma InvDistinct<T>(w: World<T>)
    requires Inv(w)
    ensures Distinct(w.table.order)
  {
  }

  lemma SameTable<T>(t: Table<T>, u: Table<T>, cursor: Option<Key>)
    requires t.order == u.order
    ensures Passed(t, cursor) == Passed(u, cursor)
  {
  }

  lemma {:induction false} RunsJoin<T>(w: World<T>, first: seq<Event<T>>, rest: seq<Event<T>>, it: IteratorId)
    requires Legal(w, first + rest)
    ensures Legal(w, first) && Legal(Run(w, first), rest)
    ensures Run(w, first + rest) == Run(Run(w, first), rest)
    ensures Trace(w, first + rest, it) == Trace(w, first, it) + Trace(Run(w, first), rest, it)
    decreases |first|
  {
    hide Enabled, Step, Reaches, Target;
    if |first| == 0 {
      assert first + rest == rest;
    } else {
      assert (first + rest)[0] == first[0] && (first + rest)[1..] == first[1..] + rest;
      RunsJoin(Step(w, first[0]), first[1..], rest, it);
    }
  }

  /** Of a full iteration: what was skipped is marked, and what is yet to be visited is not. */
  lemma {:induction false} MarkedIteration<T>(w: World<T>, pre: seq<Event<T>>, post: seq<Event<T>>, it: IteratorId)
    requires Inv(w) && Legal(w, [Begin(it)] + pre + post)
    requires forall i :: 0 <= i < |pre| ==> Steady(pre[i], it)
    requires forall i :: 0 <= i < |post| ==> Steady(post[i], it)
    requires var end := Run(w, [Begin(it)] + pre + post);
             it in end.cursors ==> end.cursors[it].None?
    ensures Distinct(w.table.order) && KeysOf(Trace(w, [Begin(it)] + pre + post, it)) == w.table.order
    ensures Legal(w, [Begin(it)] + pre) && Legal(Run(w, [Begin(it)] + pre), post)
    ensures var now := Run(w, [Begin(it)] + pre);
            && now.table.order == w.table.order
            && Trace(w, [Begin(it)] + pre + post, it) == Trace(w, [Begin(it)] + pre, it) + Trace(now, post, it)
            && (forall x :: x in Trace(w, [Begin(it)] + pre, it) && !x.visited ==> x.key in now.table.removed)
            && (forall x :: x in Trace(now, post, it) && x.visited ==> x.key !in now.table.removed)
  {
    hide Inv, Step, Enabled, Target, Reaches, Settle, Passed, Distinct, KeysOf, Legal, Run, Trace;
    var begin: Event<T> := Begin(it);
    assert [begin] + pre + post == [begin] + (pre + post);
    var next := Opening(w, pre + post, it);
    RunsJoin(w, [begin], pre + post, it);
    RunsJoin(w, [begin] + pre, post, it);
    RunsJoin(w, [begin], pre, it);
    RunsJoin(next, pre, post, it);
    SessionTrace(next, pre, it);
    RunInv(next, pre);
    var now := Run(next, pre);
    SessionTrace(now, post, it);
    SessionTrace(next, pre + post, it);
    SameTable(w.table, next.table, next.cursors[it]);
    SameTable(w.table, next.table, None);
    NonePassed(w.table);
    KeysJoin(Trace(w, [begin], it), Trace(next, pre + post, it));
  }

  /** The id is removed, alone or with all others. */
  ghost predicate Taken<T>(events: seq<Event<T>>, key: Key) {
    RemoveId(key) in events || ClearAll in events
  }

  lemma {:induction false} PlainTaken<T>(p: Plain<T>, events: seq<Event<T>>, it: IteratorId, key: Key)
    requires it in p.iterators && forall i :: 0 <= i < |events| ==> Steady(events[i], it)
    ensures key in PlainRun(p, events).entries <==> key in p.entries && !Taken(events, key)
    decreases |events|
  {
    if |events| > 0 {
      var e, rest := events[0], events[1..];
      assert events == [e] + rest;
      PlainTaken(PlainStep(p, e), rest, it, key);
    }
  }

  /**
   Without insertions an iterator that starts at the beginning and arrives at the end has come to every
   id exactly once, in order, whatever was removed, cleared or iterated meanwhile.  Cut at any moment of
   the run, after `pre`: what it has skipped so far was not in the map or has been removed or cleared
   since, and what it will yet visit was and has not.
   */
  lemma {:induction false} FullIteration<T>(owns: bool, before: seq<Event<T>>, pre: seq<Event<T>>, post: seq<Event<T>>,
                                            it: IteratorId)
    requires Legal(Start(owns), before) && Legal(Run(Start(owns), before), [Begin(it)] + pre + post)
    requires forall i :: 0 <= i < |pre| ==> Steady(pre[i], it)
    requires forall i :: 0 <= i < |post| ==> Steady(post[i], it)
    requires var end := Run(Run(Start(owns), before), [Begin(it)] + pre + post);
             it in end.cursors ==> end.cursors[it].None?
    ensures var w, entries := Run(Start(owns), before), PlainRun(PlainStart(owns), before).entries;
            && Distinct(w.table.order) && (forall k :: k in entries ==> k in w.table.order)
            && KeysOf(Trace(w, [Begin(it)] + pre + post, it)) == w.table.order
            && Legal(w, [Begin(it)] + pre) && Legal(Run(w, [Begin(it)] + pre), post)
            && var done, rest := Trace(w, [Begin(it)] + pre, it), Trace(Run(w, [Begin(it)] + pre), post, it);
            && Trace(w, [Begin(it)] + pre + post, it) == done + rest
            && (forall x :: x in done && !x.visited ==> x.key !in entries || Taken(pre, x.key))
            && (forall x :: x in rest && x.visited ==> x.key in entries && !Taken(pre, x.key))
  {
    hide Inv, Step, Enabled, Target, Reaches, Distinct, KeysOf, Legal, Run, Trace, PlainRun, Taken;
    var begin: Event<T> := Begin(it);
    StartInv<T>(owns);
    RunInv(Start(owns), before);
    RunShown(Start(owns), before);
    var w := Run(Start(owns), before);
    MarkedIteration(w, pre, post, it);
    RunInv(w, [begin] + pre);
    RunShown(w, [begin] + pre);
    OrderHoldsShown(w);
    var p, now := PlainRun(PlainStart(owns), before), Run(w, [begin] + pre);
    OrderHoldsShown(now);
    var rest := Trace(now, post, it);
    forall x | x in Trace(w, [begin] + pre, it) && !x.visited
      ensures x.key !in p.entries || Taken(pre, x.key)
    {
      BegunTaken(p, pre, it, x.key);
    }
    forall x | x in rest && x.visited
      ensures x.key in p.entries && !Taken(pre, x.key)
    {
      BegunTaken(p, pre, it, x.key);
      TraceInOrder(w, Trace(w, [begin] + pre, it), rest, x);
    }
  }

  lemma OrderHoldsShown<T>(w: World<T>)
    requires Inv(w)
    ensures Distinct(w.table.order)
    ensures forall k :: k in Shown(w).entries <==> k in w.table.order && k !in w.table.removed
  {
    hide Bag, Distinct;
    assert forall k :: k in w.table.order ==> w.table.order[FirstIndex(w.table.order, k)] == k;
  }

  lemma TraceInOrder<T>(w: World<T>, done: seq<Reached>, rest: seq<Reached>, x: Reached)
    requires KeysOf(done + rest) == w.table.order && x in rest
    ensures x.key in w.table.order
  {
    var i :| 0 <= i < |rest| && rest[i] == x;
    assert (done + rest)[|done| + i] == x && KeysOf(done + rest)[|done| + i] == x.key;
  }

  lemma BegunTaken<T>(p: Plain<T>, events: seq<Event<T>>, it: IteratorId, key: Key)
    requires forall i :: 0 <= i < |events| ==> Steady(events[i], it)
    ensures key in PlainRun(p, [Begin(it)] + events).entries <==> key in p.entries && !Taken(events, key)
  {
    var begin: Event<T> := Begin(it);
    PlainTaken(PlainStep(p, begin), events, it, key);
    assert ([begin] + events)[1..] == events;
  }

  /** The first event of a session. */
  lemma {:induction false} Opening<T>(w: World<T>, events: seq<Event<T>>, it: IteratorId) returns (next: World<T>)
    requires Inv(w) && Legal(w, [Begin(it)] + events)
    ensures Legal(w, [Begin(it)]) && next == Run(w, [Begin(it)]) && Inv(next) && it in next.cursors
    ensures next.table.order == w.table.order && next.table.removed == w.table.removed && Distinct(w.table.order)
    ensures KeysOf(Trace(w, [Begin(it)], it)) == w.table.order[0..Passed(w.table, next.cursors[it])]
    ensures forall x :: x in Trace(w, [Begin(it)], it) ==> (x.visited <==> x.key !in w.table.removed)
  {
    hide Inv, Step, Enabled, Target, Reaches, Settle, Passed, Distinct, KeysOf;
    var begin: Event<T> := Begin(it);
    assert ([begin] + events)[0] == begin && [begin][1..] == [];
    next := Step(w, begin);
    BeginStep(w, it);
    assert Run(next, []) == next && Trace(next, [], it) == [];
    assert Trace(w, [begin], it) == Reaches(w.table, Target(w, begin)) + [] == Reaches(w.table, Target(w, begin));
  }

  lemma NonePassed<T>(t: Table<T>)
    ensures Passed(t, None) == |t.order|
  {
  }

  lemma KeysJoin(a: seq<Reached>, b: seq<Reached>)
    ensures KeysOf(a + b) == KeysOf(a) + KeysOf(b)
  {
  }

  lemma {:induction false} BeginStep<T>(w: World<T>, it: IteratorId)
    requires Inv(w) && Enabled(w, Begin(it))
    ensures var next := Step(w, Begin(it));
            && Inv(next) && it in next.cursors && Target(w, Begin(it)) == 0
            && next.table.order == w.table.order && next.table.removed == w.table.removed
            && Distinct(w.table.order)
            && KeysOf(Reaches(w.table, 0)) == w.table.order[0..Passed(w.table, next.cursors[it])]
            && (forall x :: x in Reaches(w.table, 0) ==> (x.visited <==> x.key !in w.table.removed))
  {
    hide Reaches, Settle, Passed, Bag, KeysOf;
    var begin: Event<T> := Begin(it);
    StepInv(w, begin);
    ReachesExact(w.table, 0);
  }

  /** A copy of an iterator is on the same entry, or if that was removed on the first one after it that was not. */
  lemma {:induction false} CopyKeepsPlace<T>(w: World<T>, from: IteratorId, it: IteratorId)
    requires Inv(w) && Enabled(w, CopyOf(from, it))
    ensures var order, entries, cursor := w.table.order, Shown(w).entries, w.cursors[from];
            var copy := Step(w, CopyOf(from, it)).cursors[it];
            && (cursor == None ==> copy == None)
            && (cursor.Some? && cursor.value in entries ==> copy == cursor)
            && (cursor.Some? ==>
                  var i := FirstIndex(order, cursor.value);
                  var j := if copy == None then |order| else FirstIndex(order, copy.value);
                  && i <= j && (copy.Some? ==> copy.value in entries)
                  && forall k :: i <= k < j ==> order[k] !in entries)
  {
    hide Valid, Bag, Distinct;
    OrderHoldsShown(w);
    var t, cursor := w.table, w.cursors[from];
    var i := IndexOf(t, cursor);
    var j := SkipRemoved(t, i);
    assert Step(w, CopyOf(from, it)).cursors[it] == EntryAt(t, j);
    if j < |t.order| {
      DistinctIndex(t, j);
      assert t.order[j] in t.order;
    }
  }

  // ---------- Entries leaving one after the other ----------

  lemma {:induction false} DropTwice<T>(t: Table<T>, a: set<Key>, b: set<Key>)
    requires Stored(t.data, t.order)
    ensures Stored(Drop(t, a).data, Drop(t, a).order)
    ensures Drop(Drop(t, a), b) == Drop(t, a + b)
  {
    StoredParts(t.data, t.order, a);
    PartsTwice(t.data, t.order, a, b);
    assert t.data - a - b == t.data - (a + b);
  }

  lemma {:induction false} PartsTwice<T>(data: map<Key, T>, s: seq<Key>, a: set<Key>, b: set<Key>)
    requires Stored(data, s)
    ensures Kept(Kept(s, a), b) == Kept(s, a + b)
    ensures Stored(data, Gone(s, a)) && Stored(data - a, Gone(Kept(s, a), b)) && Stored(data, Gone(s, a + b))
    ensures Bag(data, Gone(s, a)) + Bag(data - a, Gone(Kept(s, a), b)) == Bag(data, Gone(s, a + b))
  {
    StoredParts(data, s, a);
    StoredParts(data - a, Kept(s, a), b);
    StoredParts(data, s, a + b);
    if |s| > 0 {
      PartsTwice(data, s[1..], a, b);
      if s[0] in a {
        assert Gone(s, a)[1..] == Gone(s[1..], a) && Gone(s, a + b)[1..] == Gone(s[1..], a + b);
      } else {
        assert Kept(s, a)[1..] == Kept(s[1..], a);
        if s[0] in b {
          assert Gone(Kept(s, a), b)[1..] == Gone(Kept(s[1..], a), b);
          assert Gone(s, a + b)[1..] == Gone(s[1..], a + b);
        }
      }
    }
  }

  lemma {:induction false} DropOne<T>(t: Table<T>, id: Key)
    requires Distinct(t.order) && Stored(t.data, t.order) && id in t.order
    ensures id in t.data
    ensures Drop(t, {id}).deleted == if t.owns then t.deleted + multiset{t.data[id]} else t.deleted
  {
    var i := FirstIndex(t.order, id);
    OneGone(t.order, id);
    assert t.order[i] == id;
    assert Gone(t.order, {id}) == [id] && [id][1..] == [];
    assert Stored(t.data, [id]);
    assert Bag(t.data, [id]) == multiset{t.data[id]};
  }

  lemma {:induction false} OneGone(s: seq<Key>, id: Key)
    requires Distinct(s)
    ensures Gone(s, {id}) == if id in s then [id] else []
  {
    if |s| > 0 {
      OneGone(s[1..], id);
    }
  }

  lemma {:induction false} BagNext<T>(data: map<Key, T>, s: seq<Key>, i: nat)
    requires Stored(data, s) && i < |s|
    ensures Bag(data, s[..i + 1]) == Bag(data, s[..i]) + multiset{data[s[i]]}
    decreases |s|
  {
    if i == 0 {
      assert s[..1][1..] == [];
    } else {
      assert s[..i + 1][1..] == s[1..][..i] && s[..i][1..] == s[1..][..i - 1];
      BagNext(data, s[1..], i - 1);
    }
  }

  lemma {:induction false} NoneKept(s: seq<Key>, gone: set<Key>)
    requires forall i :: 0 <= i < |s| ==> s[i] in gone
    ensures Kept(s, gone) == []
  {
    if |s| > 0 {
      NoneKept(s[1..], gone);
    }
  }

  lemma DropNothing<T>(t: Table<T>)
    requires Stored(t.data, t.order)
    ensures Drop(t, {}) == t && t.removed - t.removed == {}
  {
    NothingKept(t.order);
    assert t.data - {} == t.data;
  }

  lemma {:induction false} NothingKept(s: seq<Key>)
    ensures Kept(s, {}) == s && Gone(s, {}) == []
  {
    if |s| > 0 {
      NothingKept(s[1..]);
    }
  }

  lemma {:induction false} DropAbsent<T>(t: Table<T>, id: Key)
    requires Stored(t.data, t.order) && id !in t.data
    ensures Drop(t, {id}) == t
  {
    assert forall i :: 0 <= i < |t.order| ==> t.order[i] in t.data;
    AbsentKept(t.order, id);
    assert t.data - {id} == t.data;
  }

  lemma {:induction false} AbsentKept(s: seq<Key>, id: Key)
    requires forall i :: 0 <= i < |s| ==> s[i] != id
    ensures Kept(s, {id}) == s && Gone(s, {id}) == []
  {
    if |s| > 0 {
      AbsentKept(s[1..], id);
    }
  }

  lemma DropAll<T>(t: Table<T>, all: seq<Key>)
    requires Stored(t.data, t.order) && all == t.order
    ensures Drop(t, t.data.Keys).data == map[] && Drop(t, t.data.Keys).order == []
    ensures Drop(t, t.data.Keys) == Drop(t, t.data.Keys).(removed := t.removed)
    ensures t.owns ==> Drop(t, t.data.Keys).deleted == t.deleted + Bag(t.data, all)
  {
    AllGone(t.order, t.data.Keys);
    NoneKept(t.order, t.data.Keys);
    assert (t.data - t.data.Keys).Keys == {};
  }
}
