/**
 The single-threaded observer list: a vector of observer pointers whose removed
 entries are nulled while an iterator lives and squeezed out when the last one dies.

 The first part gives the list operations as functions on values.  The second part
 lets any number of iterators live at once while the list is changed arbitrarily and
 proves what such runs guarantee.  The third part is the mutable class, each method
 of which is proved to perform the operation of the first part.
 */
module ObserverLists {
  import opened Options
  import opened Sequences

  type Observer = int
  datatype NotificationType = NotifyAll | NotifyExistingOnly

  // ---------- The vector and its operations ----------

  /** `slots` is the vector (None is a nulled entry), `depth` the number of live iterators. */
  datatype List = List(slots: seq<Option<Observer>>, depth: nat, kind: NotificationType)

  /** An iterator: the next slot to look at and, unless every slot counts, where to stop. */
  datatype Iter = Iter(index: nat, limit: Option<nat>)

  function Add(l: List, o: Observer): List {
    if Some(o) in l.slots then l else l.(slots := l.slots + [Some(o)])
  }

  function Remove(l: List, o: Observer): List {
    var i := FirstIndex(l.slots, Some(o));
    if i == |l.slots| then l
    else if l.depth > 0 then l.(slots := l.slots[i := None])
    else l.(slots := Without(l.slots, i))
  }

  function Clear(l: List): List {
    l.(slots := if l.depth > 0 then seq(|l.slots|, _ => None) else [])
  }

  /** The registered observers, in slot order. */
  function Live(slots: seq<Option<Observer>>): seq<Observer> {
    if slots == [] then []
    else
      var init := Live(slots[..|slots| - 1]);
      match slots[|slots| - 1]
      case None => init
      case Some(o) => init + [o]
  }

  function Packed(r: seq<Observer>): seq<Option<Observer>> {
    seq(|r|, i requires 0 <= i < |r| => Some(r[i]))
  }

  function BeginOf(l: List): (List, Iter) {
    (l.(depth := l.depth + 1),
     Iter(0, if l.kind == NotifyAll then None else Some(|l.slots|)))
  }

  /** Ending an iterator; the outermost one compacts the vector. */
  function EndOf(l: List): List {
    if l.depth == 1 then l.(depth := 0, slots := Packed(Live(l.slots)))
    else if l.depth == 0 then l
    else l.(depth := l.depth - 1)
  }

  function Bound(slots: seq<Option<Observer>>, it: Iter): nat {
    if it.limit.Some? && it.limit.value < |slots| then it.limit.value else |slots|
  }

  /** The first position from `i` on that is not nulled, or `bound`. */
  function SkipNulls(slots: seq<Option<Observer>>, i: nat, bound: nat): (r: nat)
    requires bound <= |slots|
    ensures i <= r && (r <= bound || r == i)
    ensures forall j :: i <= j < r ==> slots[j] == None
    ensures r < bound ==> slots[r] != None
    decreases bound - i
  {
    if i < bound && slots[i] == None then SkipNulls(slots, i + 1, bound) else i
  }

  function NextOf(l: List, it: Iter): (r: (Option<Observer>, Iter)) {
    var bound := Bound(l.slots, it);
    var i := SkipNulls(l.slots, it.index, bound);
    if i < bound then (l.slots[i], it.(index := i + 1)) else (None, it.(index := i))
  }

  ghost predicate Distinct(slots: seq<Option<Observer>>) {
    forall i, j :: 0 <= i < j < |slots| && slots[i] != None ==> slots[i] != slots[j]
  }

  /** What every list satisfies between calls. */
  ghost predicate Valid(l: List) {
    && Distinct(l.slots)
    && (l.depth == 0 ==> None !in l.slots)
  }

  // ---------- The plain list that it stands for ----------

  function PlainAdd(r: seq<Observer>, o: Observer): seq<Observer> {
    if o in r then r else r + [o]
  }

  function PlainRemove(r: seq<Observer>, o: Observer): seq<Observer> {
    var i := FirstIndex(r, o);
    if i == |r| then r else Without(r, i)
  }

  lemma LiveConcat(a: seq<Option<Observer>>, b: seq<Option<Observer>>)
    ensures Live(a + b) == Live(a) + Live(b)
  {
    if b == [] {
      assert a + b == a;
    } else {
      LiveConcat(a, b[..|b| - 1]);
      assert (a + b)[..|a + b| - 1] == a + b[..|b| - 1];
    }
  }

  lemma LiveMembers(slots: seq<Option<Observer>>, o: Observer)
    ensures o in Live(slots) <==> Some(o) in slots
  {
    if slots != [] {
      LiveMembers(slots[..|slots| - 1], o);
      assert slots == slots[..|slots| - 1] + [slots[|slots| - 1]];
    }
  }

  lemma {:induction false} LiveAround(a: seq<Option<Observer>>, x: Option<Observer>, b: seq<Option<Observer>>)
    ensures Live(a + [x] + b) == Live(a) + (if x == None then [] else [x.value]) + Live(b)
  {
    LiveConcat(a + [x], b);
    assert (a + [x])[..|a|] == a;
  }

  lemma LiveNulls(slots: seq<Option<Observer>>)
    requires forall i :: 0 <= i < |slots| ==> slots[i] == None
    ensures Live(slots) == []
  {
  }

  lemma {:induction false} PlainRemoveAt(a: seq<Observer>, o: Observer, b: seq<Observer>)
    requires o !in a
    ensures PlainRemove(a + [o] + b, o) == a + b
  {
    FirstIndexIn(a, o, b);
    assert Without(a + [o] + b, |a|) == a + b;
  }

  /** Removing an observer removes exactly it from the registered ones, nulled or erased. */
  lemma {:induction false} LiveRemove(a: seq<Option<Observer>>, o: Observer, b: seq<Option<Observer>>)
    requires Some(o) !in a
    ensures Live(a + [None] + b) == PlainRemove(Live(a + [Some(o)] + b), o)
    ensures Live(a + b) == PlainRemove(Live(a + [Some(o)] + b), o)
  {
    LiveAround(a, None, b);
    LiveAround(a, Some(o), b);
    LiveMembers(a, o);
    PlainRemoveAt(Live(a), o, Live(b));
    LiveConcat(a, b);
    assert Live(a) + [] == Live(a);
  }

  lemma LivePacked(slots: seq<Option<Observer>>)
    requires None !in slots
    ensures slots == Packed(Live(slots))
  {
    if slots != [] {
      LivePacked(slots[..|slots| - 1]);
      assert slots == slots[..|slots| - 1] + [slots[|slots| - 1]];
    }
  }

  lemma LiveOfPacked(r: seq<Observer>)
    ensures Live(Packed(r)) == r
  {
    if r != [] {
      LiveOfPacked(r[..|r| - 1]);
      assert Packed(r)[..|r| - 1] == Packed(r[..|r| - 1]);
    }
  }

  lemma LiveDistinct(slots: seq<Option<Observer>>)
    requires Distinct(slots)
    ensures forall i, j :: 0 <= i < j < |Live(slots)| ==> Live(slots)[i] != Live(slots)[j]
  {
    if slots != [] {
      var init := slots[..|slots| - 1];
      LiveDistinct(init);
      if slots[|slots| - 1] != None {
        LiveMembers(init, slots[|slots| - 1].value);
      }
    }
  }

  lemma {:induction false} AddRefines(l: List, o: Observer)
    requires Valid(l)
    ensures Valid(Add(l, o)) && Live(Add(l, o).slots) == PlainAdd(Live(l.slots), o)
  {
    LiveMembers(l.slots, o);
    assert (l.slots + [Some(o)])[..|l.slots|] == l.slots;
  }

  /** What is left of a list once observer `o` has been nulled or erased. */
  lemma {:induction false} RemoveShape(l: List, o: Observer)
    requires Some(o) in l.slots
    ensures var i := FirstIndex(l.slots, Some(o));
            && i < |l.slots| && Some(o) !in l.slots[..i]
            && l.slots == l.slots[..i] + [Some(o)] + l.slots[i + 1..]
            && Remove(l, o).slots == l.slots[..i] + (if l.depth > 0 then [None] else []) + l.slots[i + 1..]
  {
    var i := FirstIndex(l.slots, Some(o));
    assert l.slots[..i] + [] == l.slots[..i];
  }

  lemma {:induction false} RemoveValid(l: List, o: Observer)
    requires Valid(l)
    ensures Valid(Remove(l, o)) && Some(o) !in Remove(l, o).slots
  {
    var i, s := FirstIndex(l.slots, Some(o)), Remove(l, o).slots;
    if i < |l.slots| && l.depth == 0 {
      assert forall k :: 0 <= k < |s| ==> s[k] == l.slots[if k < i then k else k + 1];
    }
  }

  lemma {:induction false} RemoveRefines(l: List, o: Observer)
    requires Valid(l)
    ensures Valid(Remove(l, o)) && Live(Remove(l, o).slots) == PlainRemove(Live(l.slots), o)
    ensures o !in Live(Remove(l, o).slots)
  {
    RemoveValid(l, o);
    LiveMembers(l.slots, o);
    LiveMembers(Remove(l, o).slots, o);
    if Some(o) in l.slots {
      RemoveShape(l, o);
      var i := FirstIndex(l.slots, Some(o));
      var a, b := l.slots[..i], l.slots[i + 1..];
      LiveRemove(a, o, b);
      assert a + [] == a;
    }
  }

  lemma {:induction false} ClearRefines(l: List)
    requires Valid(l)
    ensures Valid(Clear(l)) && Live(Clear(l).slots) == []
  {
    LiveNulls(Clear(l).slots);
  }

  lemma {:induction false} EndRefines(l: List)
    requires Valid(l)
    ensures Valid(EndOf(l)) && Live(EndOf(l).slots) == Live(l.slots)
    ensures EndOf(l).depth == 0 ==> EndOf(l).slots == Packed(Live(l.slots))
  {
    LiveOfPacked(Live(l.slots));
    LiveDistinct(l.slots);
    if l.depth == 0 {
      LivePacked(l.slots);
    }
  }

  // ---------- Runs: any number of iterators over a changing list ----------

  /** One observer handed out by an iterator, and the slot it came from. */
  datatype Handed = Handed(slot: nat, obs: Observer)

  /** A live iterator with the number of slots at its creation and all it has handed out. */
  datatype Cursor = Cursor(it: Iter, start: nat, handed: seq<Handed>)

  datatype World = World(list: List, cursors: map<nat, Cursor>)

  datatype Event =
    | AddObserver(obs: Observer)
    | RemoveObserver(obs: Observer)
    | ClearAll
    | BeginIteration(id: nat)
    | Next(id: nat)
    | EndIteration(id: nat)

  function Init(kind: NotificationType): World {
    World(List([], 0, kind), map[])
  }

  /** Events naming an iterator that is not alive (or, for a creation, is) change nothing. */
  function Step(w: World, e: Event): World {
    match e
    case AddObserver(o) => w.(list := Add(w.list, o))
    case RemoveObserver(o) => w.(list := Remove(w.list, o))
    case ClearAll => w.(list := Clear(w.list))
    case BeginIteration(id) =>
      if id in w.cursors then w
      else
        var (l, it) := BeginOf(w.list);
        World(l, w.cursors[id := Cursor(it, |w.list.slots|, [])])
    case Next(id) =>
      if id !in w.cursors then w
      else
        var c := w.cursors[id];
        var (r, it) := NextOf(w.list, c.it);
        var handed := if r == None then c.handed else c.handed + [Handed(it.index - 1, r.value)];
        w.(cursors := w.cursors[id := c.(it := it, handed := handed)])
    case EndIteration(id) =>
      if id !in w.cursors then w
      else World(EndOf(w.list), w.cursors - {id})
  }

  function Run(w: World, es: seq<Event>): World
    decreases |es|
  {
    if es == [] then w else Step(Run(w, es[..|es| - 1]), es[|es| - 1])
  }

  function PlainStep(r: seq<Observer>, e: Event): seq<Observer> {
    match e
    case AddObserver(o) => PlainAdd(r, o)
    case RemoveObserver(o) => PlainRemove(r, o)
    case ClearAll => []
    case _ => r
  }

  function PlainRun(r: seq<Observer>, es: seq<Event>): seq<Observer> {
    if es == [] then r else PlainStep(PlainRun(r, es[..|es| - 1]), es[|es| - 1])
  }

  ghost predicate WasHanded(c: Cursor, slot: nat) {
    exists h :: h in c.handed && h.slot == slot
  }

  /** What each live iterator has done so far, given the vector it walks over. */
  ghost predicate CursorInv(l: List, c: Cursor) {
    && c.start <= |l.slots|
    && c.it.index <= |l.slots|
    && c.it.limit == (if l.kind == NotifyAll then None else Some(c.start))
    && (forall i, j :: 0 <= i < j < |c.handed| ==> c.handed[i].slot < c.handed[j].slot)
    && (forall h :: h in c.handed ==>
          && h.slot < c.it.index
          && (c.it.limit.Some? ==> h.slot < c.start)
          && (l.slots[h.slot] == None || l.slots[h.slot] == Some(h.obs)))
    && (forall h, j :: h in c.handed && 0 <= j < c.start && l.slots[j] == Some(h.obs) ==> j == h.slot)
    && (forall j :: 0 <= j < c.it.index && (c.it.limit.Some? ==> j < c.start) && l.slots[j] != None
          ==> WasHanded(c, j))
  }

  ghost predicate WorldInv(w: World) {
    && Valid(w.list)
    && w.list.depth == |w.cursors|
    && forall id :: id in w.cursors ==> CursorInv(w.list, w.cursors[id])
  }

  /** While an iterator lives slots keep their place: they are nulled or appended, never moved. */
  ghost predicate Evolves(before: seq<Option<Observer>>, after: seq<Option<Observer>>) {
    && |before| <= |after|
    && forall j :: 0 <= j < |before| ==> after[j] == before[j] || after[j] == None
  }

  lemma {:induction false} CursorSurvives(l: List, l': List, c: Cursor)
    requires CursorInv(l, c) && l'.kind == l.kind && Evolves(l.slots, l'.slots)
    ensures CursorInv(l', c)
  {
  }

  lemma {:induction false} StepEvolves(w: World, e: Event)
    requires WorldInv(w) && Step(w, e).list.depth > 0 && w.list.depth > 0
    ensures Evolves(w.list.slots, Step(w, e).list.slots)
  {
  }

  lemma {:induction false} SkipInv(l: List, c: Cursor, i: nat)
    requires CursorInv(l, c) && c.it.index <= i <= |l.slots|
    requires forall j :: c.it.index <= j < i ==> l.slots[j] == None
    ensures CursorInv(l, c.(it := c.it.(index := i)))
  {
    forall j | 0 <= j < i && (c.it.limit.Some? ==> j < c.start) && l.slots[j] != None
      ensures WasHanded(c.(it := c.it.(index := i)), j)
    {
      assert WasHanded(c, j);
    }
  }

  lemma {:induction false} HandInv(l: List, c: Cursor)
    requires CursorInv(l, c) && c.it.index < Bound(l.slots, c.it) && l.slots[c.it.index] != None
    requires forall j :: 0 <= j < |l.slots| && l.slots[j] == l.slots[c.it.index] ==> j == c.it.index
    ensures var h := Handed(c.it.index, l.slots[c.it.index].value);
            CursorInv(l, c.(it := c.it.(index := c.it.index + 1), handed := c.handed + [h]))
  {
    var h := Handed(c.it.index, l.slots[c.it.index].value);
    var c' := c.(it := c.it.(index := c.it.index + 1), handed := c.handed + [h]);
    forall j | 0 <= j < c'.it.index && (c.it.limit.Some? ==> j < c.start) && l.slots[j] != None
      ensures WasHanded(c', j)
    {
      if j < c.it.index {
        var g :| g in c.handed && g.slot == j;
        assert g in c'.handed;
      } else {
        assert h in c'.handed;
      }
    }
  }

  lemma {:induction false} NextInv(l: List, c: Cursor)
    requires CursorInv(l, c) && Distinct(l.slots)
    ensures var (r, it) := NextOf(l, c.it);
            CursorInv(l, c.(it := it, handed := if r == None then c.handed
                                                else c.handed + [Handed(it.index - 1, r.value)]))
  {
    hide CursorInv;
    var bound := Bound(l.slots, c.it);
    var i := SkipNulls(l.slots, c.it.index, bound);
    CursorInBounds(l, c);
    SkipInv(l, c, i);
    if i < bound {
      HandInv(l, c.(it := c.it.(index := i)));
    }
  }

  lemma CursorInBounds(l: List, c: Cursor)
    requires CursorInv(l, c)
    ensures c.it.index <= |l.slots|
  {
  }

  lemma {:induction false} StepListInv(w: World, e: Event)
    requires WorldInv(w)
    ensures Valid(Step(w, e).list) && Step(w, e).list.depth == |Step(w, e).cursors|
    ensures Step(w, e).list.kind == w.list.kind
  {
    hide Live, CursorInv, FirstIndex, NextOf;
    match e {
      case AddObserver(o) => AddRefines(w.list, o);
      case RemoveObserver(o) => RemoveValid(w.list, o);
      case ClearAll => ClearRefines(w.list);
      case BeginIteration(id) =>
      case Next(id) =>
      case EndIteration(id) =>
        EndRefines(w.list);
        if id in w.cursors {
          assert w.cursors.Keys == (w.cursors - {id}).Keys + {id};
        }
    }
  }

  /** A step leaves an iterator it does not concern as it was, and still in order. */
  lemma {:induction false} StepKeepsCursor(w: World, e: Event, id: nat)
    requires WorldInv(w) && id in w.cursors
    requires e != Next(id) && e != EndIteration(id)
    ensures id in Step(w, e).cursors && Step(w, e).cursors[id] == w.cursors[id]
    ensures Evolves(w.list.slots, Step(w, e).list.slots)
    ensures CursorInv(Step(w, e).list, w.cursors[id])
  {
    StepListInv(w, e);
    assert id in Step(w, e).cursors.Keys && id in w.cursors.Keys;
    StepEvolves(w, e);
    CursorSurvives(w.list, Step(w, e).list, w.cursors[id]);
  }

  lemma BeginInv(l: List)
    ensures var (l', it) := BeginOf(l);
            CursorInv(l', Cursor(it, |l.slots|, []))
  {
  }

  lemma {:induction false} StepInv(w: World, e: Event)
    requires WorldInv(w)
    ensures WorldInv(Step(w, e))
  {
    hide CursorInv, BeginOf, NextOf, EndOf, Add, Remove, Clear;
    var w' := Step(w, e);
    StepListInv(w, e);
    forall id | id in w'.cursors ensures CursorInv(w'.list, w'.cursors[id]) {
      if id !in w.cursors {
        assert e == BeginIteration(id);
        BeginInv(w.list);
      } else if e == Next(id) {
        NextInv(w.list, w.cursors[id]);
      } else {
        StepKeepsCursor(w, e, id);
      }
    }
  }

  lemma {:induction false} RunInv(w: World, es: seq<Event>)
    requires WorldInv(w)
    ensures WorldInv(Run(w, es))
    decreases |es|
  {
    if es != [] {
      RunInv(w, es[..|es| - 1]);
      StepInv(Run(w, es[..|es| - 1]), es[|es| - 1]);
    }
  }

  // ---------- What runs guarantee ----------

  /** In every run the vector, nulled entries aside, is the list with immediate removal. */
  lemma {:induction false} RunRefinesPlainList(w: World, es: seq<Event>)
    requires WorldInv(w)
    ensures Live(Run(w, es).list.slots) == PlainRun(Live(w.list.slots), es)
    ensures Run(w, es).list.depth == 0
            ==> Run(w, es).list.slots == Packed(PlainRun(Live(w.list.slots), es))
    decreases |es|
  {
    if es != [] {
      var v, e := Run(w, es[..|es| - 1]), es[|es| - 1];
      RunRefinesPlainList(w, es[..|es| - 1]);
      RunInv(w, es[..|es| - 1]);
      StepRefines(v, e);
    }
    RunInv(w, es);
    var l := Run(w, es).list;
    if l.depth == 0 {
      LivePacked(l.slots);
    }
  }

  lemma {:induction false} StepRefines(w: World, e: Event)
    requires WorldInv(w)
    ensures Live(Step(w, e).list.slots) == PlainStep(Live(w.list.slots), e)
  {
    match e {
      case AddObserver(o) => AddRefines(w.list, o);
      case RemoveObserver(o) => RemoveRefines(w.list, o);
      case ClearAll => ClearRefines(w.list);
      case BeginIteration(id) =>
      case Next(id) =>
      case EndIteration(id) => EndRefines(w.list);
    }
  }

  /** An iterator only ever hands out an observer that is registered at that moment. */
  lemma {:induction false} HandedOutIsRegistered(kind: NotificationType, es: seq<Event>, id: nat)
    requires id in Run(Init(kind), es).cursors
    ensures var w := Run(Init(kind), es);
            var r := NextOf(w.list, w.cursors[id].it).0;
            r != None ==> r.value in PlainRun([], es)
  {
    RunRefinesPlainList(Init(kind), es);
    var w := Run(Init(kind), es);
    var r := NextOf(w.list, w.cursors[id].it).0;
    if r != None {
      LiveMembers(w.list.slots, r.value);
    }
  }

  /** While iterator `id` lives, it keeps its limits and no slot moves. */
  lemma {:induction false} Session(w: World, es: seq<Event>, id: nat)
    requires WorldInv(w) && id in w.cursors && EndIteration(id) !in es
    ensures var w' := Run(w, es);
            && id in w'.cursors && w'.cursors[id].start == w.cursors[id].start
            && Evolves(w.list.slots, w'.list.slots) && w'.list.kind == w.list.kind
    decreases |es|
  {
    hide CursorInv, Valid, NextOf, EndOf, BeginOf, Add, Remove, Clear;
    if es != [] {
      var v, e := Run(w, es[..|es| - 1]), es[|es| - 1];
      Session(w, es[..|es| - 1], id);
      RunInv(w, es[..|es| - 1]);
      StepListInv(v, e);
      if e != Next(id) {
        StepKeepsCursor(v, e, id);
      }
    }
  }

  lemma {:induction false} StepKeepsSlot(w: World, e: Event, j: nat, o: Observer)
    requires w.list.depth > 0 && Step(w, e).list.depth > 0
    requires j < |w.list.slots| && w.list.slots[j] == Some(o)
    requires e != RemoveObserver(o) && e != ClearAll
    ensures j < |Step(w, e).list.slots| && Step(w, e).list.slots[j] == Some(o)
  {
  }

  /** An observer neither removed nor cleared away keeps its slot during an iteration. */
  lemma {:induction false} UnremovedKeepsSlot(w: World, es: seq<Event>, id: nat, j: nat, o: Observer)
    requires WorldInv(w) && id in w.cursors && EndIteration(id) !in es
    requires j < |w.list.slots| && w.list.slots[j] == Some(o)
    requires RemoveObserver(o) !in es && ClearAll !in es
    ensures j < |Run(w, es).list.slots| && Run(w, es).list.slots[j] == Some(o)
    decreases |es|
  {
    if es != [] {
      var v, e := Run(w, es[..|es| - 1]), es[|es| - 1];
      UnremovedKeepsSlot(w, es[..|es| - 1], id, j, o);
      IteratorMeansDepth(w, es[..|es| - 1], id);
      IteratorMeansDepth(w, es, id);
      StepKeepsSlot(v, e, j, o);
    }
  }

  lemma {:induction false} IteratorMeansDepth(w: World, es: seq<Event>, id: nat)
    requires WorldInv(w) && id in w.cursors && EndIteration(id) !in es
    ensures Run(w, es).list.depth > 0
  {
    Session(w, es, id);
    RunInv(w, es);
    assert id in Run(w, es).cursors.Keys;
  }

  ghost predicate HandedOnce(c: Cursor, slot: nat) {
    exists i :: 0 <= i < |c.handed| && c.handed[i].slot == slot
             && forall k :: 0 <= k < |c.handed| && c.handed[k].slot == slot ==> k == i
  }

  ghost predicate NotifiedOnce(c: Cursor, o: Observer) {
    exists i :: 0 <= i < |c.handed| && c.handed[i].obs == o
             && forall k :: 0 <= k < |c.handed| && c.handed[k].obs == o ==> k == i
  }

  lemma {:induction false} PassedSlotHandedOnce(l: List, c: Cursor, j: nat)
    requires CursorInv(l, c) && NextOf(l, c.it).0 == None
    requires j < |l.slots| && l.slots[j] != None && (j < c.start || c.it.limit == None)
    ensures HandedOnce(c, j)
  {
    assert WasHanded(c, j);
    var h :| h in c.handed && h.slot == j;
    var i :| 0 <= i < |c.handed| && c.handed[i] == h;
    assert forall k :: 0 <= k < |c.handed| && c.handed[k].slot == j ==> k == i;
  }

  lemma {:induction false} KeptObserverNotifiedOnce(l: List, c: Cursor, j: nat, o: Observer)
    requires CursorInv(l, c) && NextOf(l, c.it).0 == None
    requires j < c.start && l.slots[j] == Some(o)
    ensures NotifiedOnce(c, o)
  {
    PassedSlotHandedOnce(l, c, j);
    var i :| 0 <= i < |c.handed| && c.handed[i].slot == j
          && forall k :: 0 <= k < |c.handed| && c.handed[k].slot == j ==> k == i;
    forall k | 0 <= k < |c.handed| && c.handed[k].obs == o ensures k == i {
      assert c.handed[k] in c.handed;
    }
    assert c.handed[i] in c.handed && c.handed[i].obs == o;
  }

  lemma {:induction false} KindKept(w: World, es: seq<Event>)
    ensures Run(w, es).list.kind == w.list.kind
    decreases |es|
  {
    if es != [] {
      KindKept(w, es[..|es| - 1]);
    }
  }

  /** All that holds of an iterator created when the list had `old_size` slots and `old` observers. */
  ghost predicate IterationContract(l: List, c: Cursor, old_size: nat, kept: iset<Observer>) {
    && (forall i, j :: 0 <= i < j < |c.handed| ==> c.handed[i].slot < c.handed[j].slot)
    && (l.kind == NotifyExistingOnly ==> forall h :: h in c.handed ==> h.slot < old_size)
    && (NextOf(l, c.it).0 == None ==>
        && (forall j :: 0 <= j < |l.slots| && l.slots[j] != None && (j < old_size || l.kind == NotifyAll)
              ==> HandedOnce(c, j))
        && (forall o :: o in kept ==> NotifiedOnce(c, o)))
  }

  lemma {:induction false} CursorMeetsContract(l: List, c: Cursor, kept: iset<Observer>)
    requires CursorInv(l, c)
    requires forall o :: o in kept ==> exists j :: 0 <= j < c.start && l.slots[j] == Some(o)
    ensures IterationContract(l, c, c.start, kept)
  {
    if NextOf(l, c.it).0 == None {
      forall j | 0 <= j < |l.slots| && l.slots[j] != None && (j < c.start || l.kind == NotifyAll)
        ensures HandedOnce(c, j)
      {
        PassedSlotHandedOnce(l, c, j);
      }
      forall o | o in kept ensures NotifiedOnce(c, o) {
        var j :| 0 <= j < c.start && l.slots[j] == Some(o);
        KeptObserverNotifiedOnce(l, c, j, o);
      }
    }
  }

  ghost function NeverRemoved(r: seq<Observer>, es: seq<Event>): iset<Observer> {
    iset o | o in r && RemoveObserver(o) !in es && ClearAll !in es
  }

  lemma {:induction false} UnremovedHasSlot(w: World, es: seq<Event>, id: nat, o: Observer)
    requires WorldInv(w) && id in w.cursors && EndIteration(id) !in es
    requires o in NeverRemoved(Live(w.list.slots), es)
    ensures |w.list.slots| <= |Run(w, es).list.slots|
    ensures exists j :: 0 <= j < |w.list.slots| && Run(w, es).list.slots[j] == Some(o)
  {
    Session(w, es, id);
    LiveMembers(w.list.slots, o);
    var j :| 0 <= j < |w.list.slots| && w.list.slots[j] == Some(o);
    UnremovedKeepsSlot(w, es, id, j, o);
  }

  lemma {:induction false} SessionContract(w: World, es: seq<Event>, id: nat)
    requires WorldInv(w) && id in w.cursors && EndIteration(id) !in es
    requires w.cursors[id].start == |w.list.slots|
    ensures id in Run(w, es).cursors
    ensures IterationContract(Run(w, es).list, Run(w, es).cursors[id], |w.list.slots|,
                              NeverRemoved(Live(w.list.slots), es))
  {
    hide CursorInv, IterationContract, Valid, Run, Live;
    var w' := Run(w, es);
    RunInv(w, es);
    Session(w, es, id);
    var kept := NeverRemoved(Live(w.list.slots), es);
    forall o | o in kept ensures exists j :: 0 <= j < |w.list.slots| && w'.list.slots[j] == Some(o) {
      UnremovedHasSlot(w, es, id, o);
    }
    CursorMeetsContract(w'.list, w'.cursors[id], kept);
  }

  /**
   A whole iteration, whatever happens to the list and however many other iterators come
   and go meanwhile.  Slots are visited in order and at most once; when the iterator has
   run dry, each slot that still holds an observer was visited exactly once, except that
   those appended after the iterator's creation are all skipped by NotifyExistingOnly;
   and each observer registered throughout was notified exactly once.
   */
  lemma {:induction false} CompletedIteration(kind: NotificationType, before: seq<Event>, id: nat, es: seq<Event>)
    requires id !in Run(Init(kind), before).cursors && EndIteration(id) !in es
    ensures var w0 := Run(Init(kind), before);
            var w := Run(Step(w0, BeginIteration(id)), es);
            && id in w.cursors && w.list.kind == kind
            && IterationContract(w.list, w.cursors[id], |w0.list.slots|, NeverRemoved(PlainRun([], before), es))
  {
    hide CursorInv, IterationContract, NeverRemoved, PlainRun, Add, Remove, Clear, NextOf, EndOf;
    var w0 := Run(Init(kind), before);
    var w1 := Step(w0, BeginIteration(id));
    RunRefinesPlainList(Init(kind), before);
    RunInv(Init(kind), before);
    KindKept(Init(kind), before);
    StepInv(w0, BeginIteration(id));
    SessionContract(w1, es, id);
    KindKept(w1, es);
  }

  // ---------- The mutable list and its iterator ----------

  class ObserverList {
    var observers: seq<Option<Observer>>
    var notifyDepth: nat
    const kind: NotificationType
    var alive: bool  // cleared when the list is destroyed; iterators hold only a weak pointer

    constructor (kind: NotificationType)
      ensures alive && this.kind == kind && Value() == Init(kind).list
    {
      this.kind := kind;
      observers, notifyDepth, alive := [], 0, true;
    }

    ghost function Value(): List
      reads this
    {
      List(observers, notifyDepth, kind)
    }

    method AddObserver(obs: Observer)
      modifies this`observers
      ensures Value() == Add(old(Value()), obs)
    {
      var found := HasObserver(obs);
      if found {
        return;
      }
      observers := observers + [Some(obs)];
    }

    method Find(obs: Observer) returns (i: nat)
      ensures i == FirstIndex(observers, Some(obs))
    {
      i := 0;
      while i < |observers| && observers[i] != Some(obs)
        invariant i <= |observers| && Some(obs) !in observers[..i]
      {
        i := i + 1;
      }
      FirstIndexUnique(observers, Some(obs), i);
    }

    method RemoveObserver(obs: Observer)
      modifies this`observers
      ensures Value() == Remove(old(Value()), obs)
    {
      var i := Find(obs);
      if i < |observers| {
        if notifyDepth > 0 {
          observers := observers[i := None];
        } else {
          observers := Without(observers, i);
        }
      }
    }

    method HasObserver(obs: Observer) returns (has: bool)
      ensures has <==> Some(obs) in observers
    {
      for i := 0 to |observers|
        invariant Some(obs) !in observers[..i]
      {
        if observers[i] == Some(obs) {
          return true;
        }
      }
      return false;
    }

    method ClearAll()
      modifies this`observers
      ensures Value() == Clear(old(Value()))
    {
      if notifyDepth > 0 {
        var i := 0;
        while i < |observers|
          invariant i <= |observers| == |old(observers)|
          invariant forall j :: 0 <= j < i ==> observers[j] == None
        {
          observers := observers[i := None];
          i := i + 1;
        }
      } else {
        observers := [];
      }
    }

    method Compact()
      modifies this`observers
      ensures observers == Packed(Live(old(observers)))
    {
      var kept := [];
      for i := 0 to |observers|
        invariant observers == old(observers)
        invariant kept == Packed(Live(observers[..i]))
      {
        assert observers[..i + 1][..i] == observers[..i];
        if observers[i] != None {
          kept := kept + [observers[i]];
        }
      }
      assert observers[..|observers|] == observers;
      observers := kept;
    }

    method Destroy()
      modifies this`alive
      ensures !alive
    {
      alive := false;
    }
  }

  class Iterator {
    const list: ObserverList
    var index: nat
    var maxIndex: Option<nat>  // None stands for the largest size_t

    ghost function Value(): Iter
      reads this
    {
      Iter(index, maxIndex)
    }

    constructor (list: ObserverList)
      modifies list`notifyDepth
      ensures this.list == list
      ensures (list.Value(), Value()) == BeginOf(old(list.Value()))
    {
      this.list := list;
      index := 0;
      maxIndex := if list.kind == NotifyAll then None else Some(|list.observers|);
      list.notifyDepth := list.notifyDepth + 1;
    }

    method GetNext() returns (obs: Option<Observer>)
      modifies this`index
      ensures list.alive ==> (obs, Value()) == NextOf(list.Value(), old(Value()))
      ensures !list.alive ==> obs == None && Value() == old(Value())
    {
      if !list.alive {
        return None;
      }
      var bound := if maxIndex.Some? && maxIndex.value < |list.observers| then maxIndex.value
                   else |list.observers|;
      while index < bound && list.observers[index] == None
        invariant SkipNulls(list.observers, index, bound) == SkipNulls(list.observers, old(index), bound)
        decreases bound - index
      {
        index := index + 1;
      }
      if index < bound {
        obs := list.observers[index];
        index := index + 1;
      } else {
        obs := None;
      }
    }

    /** The destructor: a list that died first is left alone. */
    method End()
      requires list.alive ==> list.notifyDepth > 0
      modifies list`notifyDepth, list`observers
      ensures list.Value() == if list.alive then EndOf(old(list.Value())) else old(list.Value())
    {
      if list.alive {
        list.notifyDepth := list.notifyDepth - 1;
        if list.notifyDepth == 0 {
          list.Compact();
        }
      }
    }
  }
}
