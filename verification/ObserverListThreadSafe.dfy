/**
 The thread-safe observer list as a protocol.  A lock-protected map gives each thread at
 most one context holding that thread's single-threaded list.  Notify posts, for every
 context in the map, a task that carries the bare context; RemoveObserver and the task
 both may delete a context.  Every locked section and every access to a context outside
 the lock is one step, so steps of different threads interleave arbitrarily.  A thread's
 stack of unfinished calls grows when a callback calls back into the list or runs a
 nested task.  Touching or deleting a context that is gone sets `fault`.
 */
module ThreadSafeObserverLists {
  import opened Options
  import opened Sequences
  import opened ObserverLists

  type Thread = int
  type ContextId = nat

  datatype Context = Context(owner: Thread, list: List, live: bool)

  /** A posted NotifyWrapper call: the thread it runs on, the bare context, which Notify. */
  datatype Task = Task(target: Thread, context: ContextId, notify: nat)

  /** An unfinished call, by what it does next. */
  datatype Frame =
    | Adding(context: ContextId, obs: Observer)      // AddObserver, lock released
    | Removing(context: ContextId, obs: Observer)    // RemoveObserver, lock released
    | Removed(context: ContextId)                    // before the size test that deletes
    | Checked(context: ContextId, notify: nat)       // NotifyWrapper, before its iterator
    | Looping(context: ContextId, notify: nat, it: Iter)
    | Calling(context: ContextId, notify: nat, it: Iter, obs: Observer)  // in the callback
    | Ending(context: ContextId, notify: nat)        // before the iterator's destructor
    | Ended(context: ContextId)                      // before the size test
    | Erasing(context: ContextId)                    // before the locked erase
    | Deleting(context: ContextId)

  /** One callback: the Notify it serves, the thread it ran on, the observer. */
  datatype Call = Call(notify: nat, thread: Thread, obs: Observer)

  /**
   `lists` is observer_lists_.  `registered` and `calls` are history: per thread the
   observers its finished AddObserver and RemoveObserver calls leave, and all callbacks.
   */
  datatype State = State(
    kind: NotificationType,
    lists: map<Thread, ContextId>,
    contexts: map<ContextId, Context>,
    tasks: set<Task>,
    stacks: map<Thread, seq<Frame>>,
    notifies: nat,
    destroyed: bool,
    fault: bool,
    registered: map<Thread, seq<Observer>>,
    calls: seq<Call>)

  datatype Step =
    | StartAdd(thread: Thread, obs: Observer, hasLoop: bool, newId: ContextId)
    | StartRemove(thread: Thread, obs: Observer)
    | Notify(thread: Thread)
    | RunTask(task: Task)
    | DropTask(task: Task)       // its message loop is gone
    | Continue(thread: Thread)   // the innermost call takes its next step, a callback by returning
    | Destroy                    // the last reference is dropped

  function Init(kind: NotificationType): State {
    State(kind, map[], map[], {}, map[], 0, false, false, map[], [])
  }

  function Stack(s: State, t: Thread): seq<Frame> {
    if t in s.stacks then s.stacks[t] else []
  }

  function Entry(s: State, t: Thread): Option<ContextId> {
    if t in s.lists then Some(s.lists[t]) else None
  }

  function Registered(s: State, t: Thread): seq<Observer> {
    if t in s.registered then s.registered[t] else []
  }

  function Top(st: seq<Frame>): Option<Frame> {
    if st == [] then None else Some(st[|st| - 1])
  }

  function Pop(st: seq<Frame>): seq<Frame> {
    if st == [] then [] else st[..|st| - 1]
  }

  predicate IsLive(cs: map<ContextId, Context>, c: ContextId) {
    c in cs && cs[c].live
  }

  /** A thread may call into the list from its top level or from inside a callback. */
  predicate CanEnter(s: State, t: Thread) {
    !s.destroyed && (Stack(s, t) == [] || Top(Stack(s, t)).value.Calling?)
  }

  ghost predicate Enabled(s: State, step: Step) {
    match step
    case StartAdd(t, _, _, newId) => CanEnter(s, t) && newId !in s.contexts
    case StartRemove(t, _) => CanEnter(s, t)
    case Notify(t) => CanEnter(s, t)
    case RunTask(task) => task in s.tasks && CanEnter(s, task.target)
    case DropTask(task) => task in s.tasks
    case Continue(t) => Stack(s, t) != []
    case Destroy => !s.destroyed && s.tasks == {} && forall t :: Stack(s, t) == []
  }

  function WithStack(s: State, t: Thread, st: seq<Frame>): State {
    s.(stacks := s.stacks[t := st])
  }

  function ListOf(s: State, c: ContextId): List {
    if c in s.contexts then s.contexts[c].list else List([], 0, s.kind)
  }

  function OwnerOf(s: State, c: ContextId): Thread {
    if c in s.contexts then s.contexts[c].owner else 0
  }

  function ApplyStartAdd(s: State, t: Thread, o: Observer, hasLoop: bool, newId: ContextId): State {
    if !hasLoop then s
    else if t in s.lists then WithStack(s, t, Stack(s, t) + [Adding(s.lists[t], o)])
    else
      var s1 := s.(contexts := s.contexts[newId := Context(t, List([], 0, s.kind), true)],
                   lists := s.lists[t := newId]);
      WithStack(s1, t, Stack(s, t) + [Adding(newId, o)])
  }

  function ApplyStartRemove(s: State, t: Thread, o: Observer): State {
    if t !in s.lists then s
    else
      var c := s.lists[t];
      var slots := ListOf(s, c).slots;
      var s1 := s.(fault := s.fault || !IsLive(s.contexts, c));
      var s2 := if Some(o) in slots && |slots| == 1 then s1.(lists := s1.lists - {t}) else s1;
      WithStack(s2, t, Stack(s, t) + [Removing(c, o)])
  }

  function ApplyNotify(s: State): State {
    s.(tasks := s.tasks + set t | t in s.lists :: Task(OwnerOf(s, s.lists[t]), s.lists[t], s.notifies),
       notifies := s.notifies + 1,
       fault := s.fault || exists t :: t in s.lists && !IsLive(s.contexts, s.lists[t]))
  }

  function ApplyRunTask(s: State, task: Task): State {
    var s1 := s.(tasks := s.tasks - {task});
    var t := task.target;
    if Entry(s, t) == Some(task.context)
    then WithStack(s1, t, Stack(s, t) + [Checked(task.context, task.notify)])
    else s1
  }

  /**
   What the innermost call does to its context, to the map, to the stack and to the history
   in its next step.  `touches` tells whether the context is dereferenced.
   */
  datatype Effect = Effect(touches: bool, list: List, delete: bool, unmap: bool, next: seq<Frame>,
                           registered: seq<Observer>, calls: seq<Call>)

  /** The next step of call `f` of thread `t`, whose context has list `l`. */
  function EffectOf(f: Frame, t: Thread, l: List, mapped: bool, reg: seq<Observer>): Effect {
    var e := Effect(true, l, false, false, [], reg, []);
    match f
    case Adding(c, o) => e.(list := Add(l, o), registered := PlainAdd(reg, o))
    case Removing(c, o) => e.(list := Remove(l, o), next := [Removed(c)], registered := PlainRemove(reg, o))
    case Removed(c) => e.(delete := l.slots == [])
    case Checked(c, n) =>
      var (l', it) := BeginOf(l);
      e.(list := l', next := [Looping(c, n, it)])
    case Looping(c, n, it) =>
      var (r, it') := NextOf(l, it);
      if r == None then e.(next := [Ending(c, n)])
      else e.(next := [Calling(c, n, it', r.value)], calls := [Call(n, t, r.value)])
    case Calling(c, n, it, _) => e.(touches := false, next := [Looping(c, n, it)])
    case Ending(c, _) => e.(list := EndOf(l), next := [Ended(c)])
    case Ended(c) => e.(next := if l.slots == [] then [Erasing(c)] else [])
    case Erasing(c) => e.(touches := false, unmap := mapped, next := [Deleting(c)])
    case Deleting(c) => e.(delete := true)
  }

  function ApplyEffect(s: State, t: Thread, c: ContextId, e: Effect): State {
    s.(contexts := if IsLive(s.contexts, c)
                   then s.contexts[c := s.contexts[c].(list := e.list, live := !e.delete)]
                   else s.contexts,
       fault := s.fault || (e.touches && !IsLive(s.contexts, c)),
       lists := if e.unmap then s.lists - {t} else s.lists,
       stacks := s.stacks[t := Pop(Stack(s, t)) + e.next],
       registered := s.registered[t := e.registered],
       calls := s.calls + e.calls)
  }

  function NextEffect(s: State, t: Thread): Effect
    requires Stack(s, t) != []
  {
    var f := Top(Stack(s, t)).value;
    EffectOf(f, t, ListOf(s, f.context), Entry(s, t) == Some(f.context), Registered(s, t))
  }

  /** The innermost call takes its next step; for a callback, that is its return. */
  function ApplyContinue(s: State, t: Thread): State
    requires Stack(s, t) != []
  {
    ApplyEffect(s, t, Top(Stack(s, t)).value.context, NextEffect(s, t))
  }

  /** The destructor deletes every context still in the map. */
  function ApplyDestroy(s: State): State {
    s.(destroyed := true,
       fault := s.fault || exists t :: t in s.lists && !IsLive(s.contexts, s.lists[t]),
       contexts := map c | c in s.contexts ::
         s.contexts[c].(live := s.contexts[c].live && c !in s.lists.Values))
  }

  function Apply(s: State, step: Step): State {
    match step
    case StartAdd(t, o, hasLoop, newId) => ApplyStartAdd(s, t, o, hasLoop, newId)
    case StartRemove(t, o) => ApplyStartRemove(s, t, o)
    case Notify(_) => ApplyNotify(s)
    case RunTask(task) => ApplyRunTask(s, task)
    case DropTask(task) => s.(tasks := s.tasks - {task})
    case Continue(t) => if Stack(s, t) == [] then s else ApplyContinue(s, t)
    case Destroy => ApplyDestroy(s)
  }

  // ---------- The invariant ----------

  predicate Iterating(f: Frame, c: ContextId) {
    (f.Looping? || f.Calling? || f.Ending?) && f.context == c
  }

  /** How many iterators the calls on a stack hold on context `c`. */
  function Iterators(st: seq<Frame>, c: ContextId): nat {
    if st == [] then 0
    else Iterators(st[..|st| - 1], c) + if Iterating(st[|st| - 1], c) then 1 else 0
  }

  lemma {:induction false} IteratorsPush(st: seq<Frame>, f: Frame)
    ensures forall c :: Iterators(st + [f], c) == Iterators(st, c) + if Iterating(f, c) then 1 else 0
  {
    assert (st + [f])[..|st|] == st;
  }

  /** What holds of a thread's own live context `c` that is in the map. */
  ghost predicate MappedOk(l: List, c: ContextId, top: Option<Frame>) {
    l.slots == [] ==> (&& top.Some? && top.value.context == c
                       && (top.value.Adding? || top.value.Ended? || top.value.Erasing?))
  }

  /** What holds of one outside the map: it is empty and one of the thread's calls will delete it. */
  ghost predicate UnmappedOk(l: List, c: ContextId, top: Option<Frame>) {
    || (top.Some? && top.value.Removing? && top.value.context == c && l.slots == [Some(top.value.obs)])
    || (&& Live(l.slots) == []
        && (l.depth == 0 ==>
            (&& l.slots == [] && top.Some? && top.value.context == c
             && (top.value.Removed? || top.value.Ended? || top.value.Erasing? || top.value.Deleting?))))
  }

  /** Constraints of a thread's innermost call. */
  ghost predicate TopOk(cs: map<ContextId, Context>, entry: Option<ContextId>, f: Frame) {
    f.context in cs &&
    var l := cs[f.context].list;
    match f
    case Adding(c, _) => entry == Some(c)
    case Checked(c, _) => entry == Some(c)
    case Removing(c, o) => entry == if l.slots == [Some(o)] then None else Some(c)
    case Erasing(c) => l.slots == [] && l.depth == 0
    case Deleting(c) => l.slots == [] && l.depth == 0 && entry != Some(c)
    case _ => true
  }

  /** The observers the thread has registered, read off the protocol's data. */
  ghost function Effective(cs: map<ContextId, Context>, entry: Option<ContextId>, top: Option<Frame>): seq<Observer> {
    if top.Some? && top.value.Removing? && top.value.context in cs then Live(cs[top.value.context].list.slots)
    else if entry.Some? && entry.value in cs then Live(cs[entry.value].list.slots)
    else []
  }

  predicate Own(cs: map<ContextId, Context>, t: Thread, c: ContextId) {
    c in cs && cs[c].live && cs[c].owner == t
  }

  ghost predicate ContextOk(kind: NotificationType, l: List, c: ContextId, entry: Option<ContextId>, st: seq<Frame>) {
    && Valid(l) && l.kind == kind
    && l.depth == Iterators(st, c)
    && (l.depth > 0 ==> l.slots != [])
    && (if entry == Some(c) then MappedOk(l, c, Top(st)) else UnmappedOk(l, c, Top(st)))
  }

  /** Every call but the innermost is in a callback, and all work on the thread's live contexts. */
  ghost predicate StackOk(cs: map<ContextId, Context>, t: Thread, st: seq<Frame>) {
    && (forall i :: 0 <= i < |st| - 1 ==> st[i].Calling?)
    && (forall i :: 0 <= i < |st| ==> Own(cs, t, st[i].context))
  }

  ghost predicate ContextsOk(kind: NotificationType, cs: map<ContextId, Context>, t: Thread,
                             entry: Option<ContextId>, st: seq<Frame>)
  {
    forall c :: Own(cs, t, c) ==> ContextOk(kind, cs[c].list, c, entry, st)
  }

  ghost predicate ThreadInv(kind: NotificationType, cs: map<ContextId, Context>, t: Thread,
                            entry: Option<ContextId>, st: seq<Frame>, reg: seq<Observer>)
  {
    && StackOk(cs, t, st)
    && ContextsOk(kind, cs, t, entry, st)
    && (entry.Some? ==> Own(cs, t, entry.value))
    && (st != [] ==> TopOk(cs, entry, st[|st| - 1]))
    && reg == Effective(cs, entry, Top(st))
  }

  ghost predicate InvFor(s: State, t: Thread) {
    ThreadInv(s.kind, s.contexts, t, Entry(s, t), Stack(s, t), Registered(s, t))
  }

  ghost predicate Inv(s: State) {
    && !s.fault
    && (!s.destroyed ==> forall t :: InvFor(s, t))
    && (s.destroyed ==> (&& s.tasks == {} && (forall t :: Stack(s, t) == [])
                         && forall c :: c in s.contexts ==> !s.contexts[c].live))
  }

  /** `s'` differs from `s` only in what belongs to thread `t`. */
  ghost predicate OnlyTouches(s: State, s': State, t: Thread) {
    && s'.kind == s.kind && s'.destroyed == s.destroyed
    && (forall u :: u != t ==> && Entry(s', u) == Entry(s, u) && Stack(s', u) == Stack(s, u)
                               && Registered(s', u) == Registered(s, u))
    && (forall c :: c in s.contexts ==> c in s'.contexts && s'.contexts[c].owner == s.contexts[c].owner)
    && (forall c :: c in s'.contexts && s'.contexts[c].owner != t ==>
          c in s.contexts && s'.contexts[c] == s.contexts[c])
  }

  lemma {:induction false} OthersUndisturbed(s: State, s': State, t: Thread, u: Thread)
    requires OnlyTouches(s, s', t) && u != t && InvFor(s, u)
    ensures InvFor(s', u)
  {
    assert forall c :: Own(s'.contexts, u, c) <==> Own(s.contexts, u, c);
    assert forall c :: Own(s.contexts, u, c) ==> s'.contexts[c] == s.contexts[c];
  }

  // ---------- Every step keeps the invariant ----------

  predicate Neutral(top: Option<Frame>, c: ContextId) {
    top == None || top.value.Calling? || top.value.context != c
  }

  lemma {:induction false} OtherContextOk(kind: NotificationType, l: List, c: ContextId,
                                          entry: Option<ContextId>, entry': Option<ContextId>,
                                          st: seq<Frame>, st': seq<Frame>)
    requires ContextOk(kind, l, c, entry, st) && Neutral(Top(st), c) && Neutral(Top(st'), c)
    requires Iterators(st', c) == Iterators(st, c)
    requires entry' == Some(c) <==> entry == Some(c)
    ensures ContextOk(kind, l, c, entry', st')
  {
  }

  lemma {:induction false} NoIteratorNoCall(st: seq<Frame>, c: ContextId)
    requires Iterators(st, c) == 0
    ensures forall i :: 0 <= i < |st| ==> !Iterating(st[i], c)
  {
    if st != [] {
      NoIteratorNoCall(st[..|st| - 1], c);
    }
  }

  lemma {:induction false} StepStack(cs: map<ContextId, Context>, t: Thread, x: Context,
                                     rest: seq<Frame>, f: Frame, next: seq<Frame>)
    requires StackOk(cs, t, rest + [f]) && f.context in cs && x.owner == t
    requires |next| <= 1 && (next != [] ==> next[0].context == f.context && x.live)
    requires !x.live ==> Iterators(rest, f.context) == 0
    ensures StackOk(cs[f.context := x], t, rest + next)
  {
    var st, st' := rest + [f], rest + next;
    assert forall i :: 0 <= i < |rest| ==> st[i] == rest[i] && st'[i] == rest[i];
    if !x.live {
      NoIteratorNoCall(rest, f.context);
    }
  }

  lemma {:induction false} StepContexts(kind: NotificationType, cs: map<ContextId, Context>, t: Thread, x: Context,
                                        entry: Option<ContextId>, entry': Option<ContextId>,
                                        rest: seq<Frame>, f: Frame, next: seq<Frame>)
    requires ContextsOk(kind, cs, t, entry, rest + [f]) && StackOk(cs, t, rest + [f])
    requires |next| <= 1 && (next != [] ==> next[0].context == f.context)
    requires entry' == entry || (entry == Some(f.context) && entry' == None)
    requires x.live ==> ContextOk(kind, x.list, f.context, entry', rest + next)
    ensures ContextsOk(kind, cs[f.context := x], t, entry', rest + next)
  {
    var c := f.context;
    var st, st' := rest + [f], rest + next;
    IteratorsPush(rest, f);
    if next == [] {
      assert st' == rest;
      assert rest != [] ==> st[|rest| - 1].Calling?;
    } else {
      assert next == [next[0]];
      IteratorsPush(rest, next[0]);
    }
    var cs' := cs[c := x];
    forall d | Own(cs', t, d) ensures ContextOk(kind, cs'[d].list, d, entry', st') {
      if d != c {
        OtherContextOk(kind, cs[d].list, d, entry, entry', st, st');
      }
    }
  }

  /**
   The innermost call `f` of thread `t`, on context `c`, is replaced by `next` (none, or one
   on `c` again), the context becomes `x` and is at most dropped from the map.  Only `x`
   itself, the new innermost call and the history are left to check.
   */
  lemma {:induction false} StepInner(kind: NotificationType, cs: map<ContextId, Context>, t: Thread, x: Context,
                                     entry: Option<ContextId>, entry': Option<ContextId>,
                                     rest: seq<Frame>, f: Frame, next: seq<Frame>,
                                     reg: seq<Observer>, reg': seq<Observer>)
    requires ThreadInv(kind, cs, t, entry, rest + [f], reg) && f.context in cs && x.owner == t
    requires |next| <= 1 && (next != [] ==> next[0].context == f.context && x.live)
    requires entry' == entry || (entry == Some(f.context) && entry' == None)
    requires if x.live then ContextOk(kind, x.list, f.context, entry', rest + next)
             else entry' != Some(f.context) && Iterators(rest, f.context) == 0
    requires next != [] ==> TopOk(cs[f.context := x], entry', next[0])
    requires reg' == Effective(cs[f.context := x], entry', Top(rest + next))
    ensures ThreadInv(kind, cs[f.context := x], t, entry', rest + next, reg')
  {
    StepStack(cs, t, x, rest, f, next);
    StepContexts(kind, cs, t, x, entry, entry', rest, f, next);
    var st, st' := rest + [f], rest + next;
    if next == [] && rest != [] {
      assert st'[|st'| - 1] == st[|rest| - 1];
      assert st'[|st'| - 1].Calling?;
    }
  }

  /** The innermost call of a thread and what the invariant says of its context. */
  lemma {:induction false} InnerCall(s: State, t: Thread)
    requires InvFor(s, t) && Stack(s, t) != []
    ensures var rest, f := Pop(Stack(s, t)), Top(Stack(s, t)).value;
            && Stack(s, t) == rest + [f]
            && Own(s.contexts, t, f.context)
            && ContextOk(s.kind, s.contexts[f.context].list, f.context, Entry(s, t), rest + [f])
            && TopOk(s.contexts, Entry(s, t), f)
            && (Entry(s, t).Some? ==> Own(s.contexts, t, Entry(s, t).value))
            && Registered(s, t) == Effective(s.contexts, Entry(s, t), Some(f))
            && (forall c :: Iterators(rest + [f], c) == Iterators(rest, c) + if Iterating(f, c) then 1 else 0)
            && (rest != [] ==> Top(rest).value.Calling?)
  {
    var st := Stack(s, t);
    assert st == Pop(st) + [st[|st| - 1]];
    IteratorsPush(Pop(st), st[|st| - 1]);
    if |st| > 1 {
      assert st[|st| - 2].Calling?;
    }
  }

  ghost predicate StepOk(s: State, s': State, t: Thread) {
    !s'.fault && OnlyTouches(s, s', t) && InvFor(s', t)
  }

  /** The part of the invariant that effect `e` of the innermost call `f` has to restore. */
  ghost predicate Fits(kind: NotificationType, cs: map<ContextId, Context>, t: Thread, entry: Option<ContextId>,
                       rest: seq<Frame>, f: Frame, e: Effect)
  {
    var c := f.context;
    c in cs &&
    var entry' := if e.unmap then None else entry;
    var cs' := cs[c := Context(t, e.list, !e.delete)];
    && (e.unmap ==> entry == Some(c))
    && |e.next| <= 1 && (e.next != [] ==> e.next[0].context == c && !e.delete && TopOk(cs', entry', e.next[0]))
    && (if e.delete then entry' != Some(c) && Iterators(rest, c) == 0
        else ContextOk(kind, e.list, c, entry', rest + e.next))
    && e.registered == Effective(cs', entry', Top(rest + e.next))
  }

  ghost predicate NextFits(s: State, t: Thread)
    requires Stack(s, t) != []
  {
    Fits(s.kind, s.contexts, t, Entry(s, t), Pop(Stack(s, t)), Top(Stack(s, t)).value, NextEffect(s, t))
  }

  /** What `ApplyEffect` makes of thread `t`'s part of the state. */
  lemma {:induction false} EffectShape(s: State, t: Thread, c: ContextId, e: Effect)
    requires Own(s.contexts, t, c) && (e.unmap ==> t in s.lists)
    ensures var s' := ApplyEffect(s, t, c, e);
            && s'.contexts == s.contexts[c := Context(t, e.list, !e.delete)]
            && Entry(s', t) == (if e.unmap then None else Entry(s, t))
            && Stack(s', t) == Pop(Stack(s, t)) + e.next && Registered(s', t) == e.registered
            && s'.fault == s.fault && s'.kind == s.kind
            && OnlyTouches(s, s', t)
  {
  }

  lemma {:induction false} ContinueOk(s: State, t: Thread)
    requires InvFor(s, t) && Stack(s, t) != [] && !s.fault && NextFits(s, t)
    ensures StepOk(s, ApplyContinue(s, t), t)
  {
    hide EffectOf, ApplyEffect, OnlyTouches, Live;
    InnerCall(s, t);
    var rest, f, e := Pop(Stack(s, t)), Top(Stack(s, t)).value, NextEffect(s, t);
    EffectShape(s, t, f.context, e);
    StepInner(s.kind, s.contexts, t, Context(t, e.list, !e.delete), Entry(s, t),
              if e.unmap then None else Entry(s, t), rest, f, e.next, Registered(s, t), e.registered);
  }

  ghost predicate Inside(s: State, t: Thread, f: Frame) {
    InvFor(s, t) && Top(Stack(s, t)) == Some(f)
  }

  lemma {:induction false} AddingFits(s: State, t: Thread, c: ContextId, o: Observer)
    requires Inside(s, t, Adding(c, o))
    ensures NextFits(s, t)
  {
    hide InvFor, Add, PlainAdd, Live, Valid, Iterators;
    InnerCall(s, t);
    AddKeepsShape(s.contexts[c].list, o);
    AddRefines(s.contexts[c].list, o);
    assert Pop(Stack(s, t)) + [] == Pop(Stack(s, t));
  }

  lemma {:induction false} RemoveFromMapped(l: List, o: Observer)
    requires Valid(l) && l.slots != []
    ensures l.slots != [Some(o)] ==> Remove(l, o).slots != []
    ensures l.slots == [Some(o)] ==> Live(Remove(l, o).slots) == [] && (l.depth == 0 ==> Remove(l, o).slots == [])
    ensures Remove(l, o).depth == l.depth && (l.depth > 0 ==> Remove(l, o).slots != [])
  {
    if l.slots == [Some(o)] {
      assert FirstIndex(l.slots, Some(o)) == 0;
      LiveNulls(Remove(l, o).slots);
    } else if |l.slots| == 1 {
      assert Some(o) !in l.slots;
    }
  }

  lemma {:induction false} RemovingFits(s: State, t: Thread, c: ContextId, o: Observer)
    requires Inside(s, t, Removing(c, o))
    ensures NextFits(s, t)
  {
    hide InvFor, Remove, PlainRemove, Live, Valid, Iterators;
    InnerCall(s, t);
    var l := s.contexts[c].list;
    RemoveRefines(l, o);
    RemoveFromMapped(l, o);
    RemoveKeepsShape(l, o);
    IteratorsPush(Pop(Stack(s, t)), Removed(c));
  }

  lemma {:induction false} AddKeepsShape(l: List, o: Observer)
    ensures Add(l, o).kind == l.kind && Add(l, o).depth == l.depth && Add(l, o).slots != []
  {
  }

  lemma {:induction false} RemoveKeepsShape(l: List, o: Observer)
    ensures Remove(l, o).kind == l.kind && Remove(l, o).depth == l.depth
  {
  }

  lemma {:induction false} RemovedFits(s: State, t: Thread, c: ContextId)
    requires Inside(s, t, Removed(c))
    ensures NextFits(s, t)
  {
    hide InvFor, Live, Valid, Iterators, Add, Remove, BeginOf, NextOf, EndOf, PlainAdd, PlainRemove;
    InnerCall(s, t);
    assert Pop(Stack(s, t)) + [] == Pop(Stack(s, t));
  }

  lemma {:induction false} CheckedFits(s: State, t: Thread, c: ContextId, n: nat)
    requires Inside(s, t, Checked(c, n))
    ensures NextFits(s, t)
  {
    hide InvFor, Live, Iterators;
    InnerCall(s, t);
    IteratorsPush(Pop(Stack(s, t)), NextEffect(s, t).next[0]);
  }

  lemma {:induction false} IteratingFits(s: State, t: Thread)
    requires InvFor(s, t) && Stack(s, t) != []
    requires Top(Stack(s, t)).value.Looping? || Top(Stack(s, t)).value.Calling?
    ensures NextFits(s, t)
  {
    hide InvFor, Live, Valid, NextOf, Iterators;
    InnerCall(s, t);
    IteratorsPush(Pop(Stack(s, t)), NextEffect(s, t).next[0]);
  }

  lemma {:induction false} EndingFits(s: State, t: Thread, c: ContextId, n: nat)
    requires Inside(s, t, Ending(c, n))
    ensures NextFits(s, t)
  {
    hide InvFor, Valid, Iterators;
    InnerCall(s, t);
    EndRefines(s.contexts[c].list);
    IteratorsPush(Pop(Stack(s, t)), Ended(c));
  }

  lemma {:induction false} EndedFits(s: State, t: Thread, c: ContextId)
    requires Inside(s, t, Ended(c))
    ensures NextFits(s, t)
  {
    hide InvFor, Live, Valid, Iterators, EffectOf;
    InnerCall(s, t);
    EndedEffect(t, c, ListOf(s, c), Entry(s, t) == Some(c), Registered(s, t));
    var rest := Pop(Stack(s, t));
    assert rest + [] == rest;
    assert s.contexts[c := Context(t, s.contexts[c].list, true)] == s.contexts;
    IteratorsPush(rest, Erasing(c));
  }

  lemma {:induction false} EndedEffect(t: Thread, c: ContextId, l: List, mapped: bool, reg: seq<Observer>)
    ensures EffectOf(Ended(c), t, l, mapped, reg)
            == Effect(true, l, false, false, if l.slots == [] then [Erasing(c)] else [], reg, [])
  {
  }

  lemma {:induction false} ErasingFits(s: State, t: Thread, c: ContextId)
    requires Inside(s, t, Erasing(c))
    ensures NextFits(s, t)
  {
    hide InvFor, Live, Valid, Iterators, Add, Remove, BeginOf, NextOf, EndOf, PlainAdd, PlainRemove;
    InnerCall(s, t);
    LiveNulls(s.contexts[c].list.slots);
    IteratorsPush(Pop(Stack(s, t)), Deleting(c));
  }

  lemma {:induction false} DeletingFits(s: State, t: Thread, c: ContextId)
    requires Inside(s, t, Deleting(c))
    ensures NextFits(s, t)
  {
    hide InvFor, Live, Valid, Iterators, Add, Remove, BeginOf, NextOf, EndOf, PlainAdd, PlainRemove;
    InnerCall(s, t);
    assert Pop(Stack(s, t)) + [] == Pop(Stack(s, t));
  }

  lemma {:induction false} EveryCallFits(s: State, t: Thread)
    requires InvFor(s, t) && Stack(s, t) != []
    ensures NextFits(s, t)
  {
    hide InvFor, NextFits;
    match Top(Stack(s, t)).value {
      case Adding(c, o) => AddingFits(s, t, c, o);
      case Removing(c, o) => RemovingFits(s, t, c, o);
      case Removed(c) => RemovedFits(s, t, c);
      case Checked(c, n) => CheckedFits(s, t, c, n);
      case Looping(_, _, _) => IteratingFits(s, t);
      case Calling(_, _, _, _) => IteratingFits(s, t);
      case Ending(c, n) => EndingFits(s, t, c, n);
      case Ended(c) => EndedFits(s, t, c);
      case Erasing(c) => ErasingFits(s, t, c);
      case Deleting(c) => DeletingFits(s, t, c);
    }
  }

  lemma {:induction false} NoFrameNoIterator(st: seq<Frame>, c: ContextId)
    requires forall i :: 0 <= i < |st| ==> st[i].context != c
    ensures Iterators(st, c) == 0
  {
    if st != [] {
      NoFrameNoIterator(st[..|st| - 1], c);
    }
  }

  /** The shape of a step by which thread `t` enters a call `f` that holds no iterator. */
  ghost predicate EnterStep(s: State, s': State, t: Thread, x: Context, entry': Option<ContextId>, f: Frame) {
    && s'.contexts == s.contexts[f.context := x]
    && s'.kind == s.kind && s'.destroyed == s.destroyed && s'.fault == s.fault
    && s'.registered == s.registered && s'.stacks == s.stacks[t := Stack(s, t) + [f]]
    && Entry(s', t) == entry' && (forall u :: u != t ==> Entry(s', u) == Entry(s, u))
  }

  lemma {:induction false} EnterContexts(kind: NotificationType, cs: map<ContextId, Context>, t: Thread, x: Context,
                                          entry: Option<ContextId>, entry': Option<ContextId>,
                                          st: seq<Frame>, f: Frame)
    requires ContextsOk(kind, cs, t, entry, st) && (st != [] ==> st[|st| - 1].Calling?)
    requires f.Adding? || f.Removing? || f.Checked?
    requires forall d :: d != f.context ==> (entry' == Some(d) <==> entry == Some(d))
    requires ContextOk(kind, x.list, f.context, entry', st + [f])
    ensures ContextsOk(kind, cs[f.context := x], t, entry', st + [f])
  {
    IteratorsPush(st, f);
    var cs' := cs[f.context := x];
    forall d | Own(cs', t, d) ensures ContextOk(kind, cs'[d].list, d, entry', st + [f]) {
      if d != f.context {
        OtherContextOk(kind, cs[d].list, d, entry, entry', st, st + [f]);
      }
    }
  }

  lemma {:induction false} EnterOk(s: State, s': State, t: Thread, x: Context, entry': Option<ContextId>, f: Frame)
    requires InvFor(s, t) && CanEnter(s, t) && !s.fault
    requires EnterStep(s, s', t, x, entry', f) && x.owner == t && x.live
    requires f.context in s.contexts ==> s.contexts[f.context].owner == t
    requires f.Adding? || f.Removing? || f.Checked?
    requires forall d :: d != f.context ==> (entry' == Some(d) <==> Entry(s, t) == Some(d))
    requires ContextOk(s.kind, x.list, f.context, entry', Stack(s, t) + [f])
    requires TopOk(s'.contexts, entry', f)
    requires Registered(s, t) == Effective(s'.contexts, entry', Some(f))
    ensures StepOk(s, s', t)
  {
    EnterContexts(s.kind, s.contexts, t, x, Entry(s, t), entry', Stack(s, t), f);
  }

  lemma {:induction false} StartAddOk(s: State, t: Thread, o: Observer, hasLoop: bool, newId: ContextId)
    requires InvFor(s, t) && CanEnter(s, t) && !s.fault && newId !in s.contexts
    ensures StepOk(s, ApplyStartAdd(s, t, o, hasLoop, newId), t)
  {
    hide StepOk, Iterators, Live;
    var s', st := ApplyStartAdd(s, t, o, hasLoop, newId), Stack(s, t);
    if !hasLoop {
      NothingHappens(s, t);
    } else if t in s.lists {
      var c := s.lists[t];
      IteratorsPush(st, Adding(c, o));
      assert s.contexts[c := s.contexts[c]] == s.contexts;
      EnterOk(s, s', t, s.contexts[c], Some(c), Adding(c, o));
    } else {
      StartFirstAddOk(s, t, o, newId);
    }
  }

  /** The thread's first AddObserver makes it a context. */
  lemma {:induction false} StartFirstAddOk(s: State, t: Thread, o: Observer, newId: ContextId)
    requires InvFor(s, t) && CanEnter(s, t) && !s.fault && newId !in s.contexts && t !in s.lists
    ensures StepOk(s, ApplyStartAdd(s, t, o, true, newId), t)
  {
    hide StepOk, Iterators, Live;
    NoFrameNoIterator(Stack(s, t), newId);
    LiveNulls([]);
    IteratorsPush(Stack(s, t), Adding(newId, o));
    EnterOk(s, ApplyStartAdd(s, t, o, true, newId), t, Context(t, List([], 0, s.kind), true), Some(newId),
            Adding(newId, o));
  }

  lemma {:induction false} NothingHappens(s: State, t: Thread)
    requires InvFor(s, t) && !s.fault
    ensures StepOk(s, s, t)
  {
  }

  lemma {:induction false} StartRemoveOk(s: State, t: Thread, o: Observer)
    requires InvFor(s, t) && CanEnter(s, t) && !s.fault
    ensures StepOk(s, ApplyStartRemove(s, t, o), t)
  {
    hide StepOk, Iterators, Live;
    var s', st := ApplyStartRemove(s, t, o), Stack(s, t);
    if t !in s.lists {
      NothingHappens(s, t);
    } else {
      var c := s.lists[t];
      var l := s.contexts[c].list;
      IteratorsPush(st, Removing(c, o));
      assert s.contexts[c := s.contexts[c]] == s.contexts;
      assert Some(o) in l.slots && |l.slots| == 1 <==> l.slots == [Some(o)];
      EnterOk(s, s', t, s.contexts[c], if l.slots == [Some(o)] then None else Some(c), Removing(c, o));
    }
  }

  lemma {:induction false} RunTaskOk(s: State, task: Task)
    requires InvFor(s, task.target) && CanEnter(s, task.target) && !s.fault
    ensures StepOk(s, ApplyRunTask(s, task), task.target)
  {
    hide StepOk, Iterators, Live;
    var t, c := task.target, task.context;
    var s', st := ApplyRunTask(s, task), Stack(s, t);
    if Entry(s, t) == Some(c) {
      IteratorsPush(st, Checked(c, task.notify));
      assert s.contexts[c := s.contexts[c]] == s.contexts;
      EnterOk(s, s', t, s.contexts[c], Some(c), Checked(c, task.notify));
    } else {
      TasksDoNotMatter(s, s'.tasks, t);
    }
  }

  lemma {:induction false} TasksDoNotMatter(s: State, tasks: set<Task>, t: Thread)
    requires InvFor(s, t) && !s.fault
    ensures StepOk(s, s.(tasks := tasks), t)
  {
  }

  /** The thread a step belongs to; steps of no thread's own leave every thread's data alone. */
  function Actor(step: Step): Thread {
    match step
    case StartAdd(t, _, _, _) => t
    case StartRemove(t, _) => t
    case Notify(t) => t
    case RunTask(task) => task.target
    case DropTask(task) => task.target
    case Continue(t) => t
    case Destroy => 0
  }

  lemma {:induction false} ActorOk(s: State, step: Step)
    requires Inv(s) && Enabled(s, step) && !s.destroyed && !step.Destroy?
    ensures StepOk(s, Apply(s, step), Actor(step))
  {
    hide StepOk;
    assert InvFor(s, Actor(step));
    match step {
      case StartAdd(t, o, hasLoop, newId) => StartAddOk(s, t, o, hasLoop, newId);
      case StartRemove(t, o) => StartRemoveOk(s, t, o);
      case Notify(t) => NotifyOk(s, t);
      case RunTask(task) => RunTaskOk(s, task);
      case DropTask(task) => TasksDoNotMatter(s, s.tasks - {task}, task.target);
      case Continue(t) =>
        EveryCallFits(s, t);
        ContinueOk(s, t);
    }
  }

  lemma {:induction false} NotifyOk(s: State, t: Thread)
    requires Inv(s) && !s.destroyed
    ensures StepOk(s, ApplyNotify(s), t)
  {
    forall u | u in s.lists ensures IsLive(s.contexts, s.lists[u]) {
      assert InvFor(s, u);
    }
    assert InvFor(s, t);
  }

  lemma {:induction false} DestroyOk(s: State)
    requires Inv(s) && Enabled(s, Destroy)
    ensures Inv(ApplyDestroy(s))
  {
    forall u | u in s.lists ensures IsLive(s.contexts, s.lists[u]) {
      assert InvFor(s, u);
    }
    forall c | c in s.contexts && s.contexts[c].live ensures c in s.lists.Values {
      var t := s.contexts[c].owner;
      assert InvFor(s, t) && Own(s.contexts, t, c) && Stack(s, t) == [];
      assert ContextOk(s.kind, s.contexts[c].list, c, Entry(s, t), []);
      assert t in s.lists && s.lists[t] == c;
    }
    assert forall t :: Stack(ApplyDestroy(s), t) == Stack(s, t);
  }

  /** Every enabled step keeps the invariant; in particular none touches a deleted context. */
  lemma {:induction false} StepKeepsInv(s: State, step: Step)
    requires Inv(s) && Enabled(s, step)
    ensures Inv(Apply(s, step))
  {
    if step.Destroy? {
      DestroyOk(s);
    } else {
      EnabledMeansAlive(s, step);
      ActorOk(s, step);
      var s', t := Apply(s, step), Actor(step);
      forall u | u != t ensures InvFor(s', u) {
        assert InvFor(s, u);
        OthersUndisturbed(s, s', t, u);
      }
    }
  }

  lemma {:induction false} EnabledMeansAlive(s: State, step: Step)
    requires Inv(s) && Enabled(s, step)
    ensures !s.destroyed
  {
  }

  // ---------- What every run guarantees ----------

  /** A run: the states between consecutive enabled steps, from a fresh list. */
  ghost predicate IsRun(kind: NotificationType, states: seq<State>, steps: seq<Step>) {
    && |states| == |steps| + 1
    && states[0] == Init(kind)
    && forall k :: 0 <= k < |steps| ==> Enabled(states[k], steps[k]) && states[k + 1] == Apply(states[k], steps[k])
  }

  lemma {:induction false} RunInvariant(kind: NotificationType, states: seq<State>, steps: seq<Step>, k: nat)
    requires IsRun(kind, states, steps) && k <= |steps|
    ensures Inv(states[k])
  {
    if k > 0 {
      RunInvariant(kind, states, steps, k - 1);
      StepKeepsInv(states[k - 1], steps[k - 1]);
    }
  }

  ghost predicate WorksOn(s: State, t: Thread, c: ContextId) {
    exists i :: 0 <= i < |Stack(s, t)| && Stack(s, t)[i].context == c
  }

  /**
   Nothing has touched a deleted context or deleted one twice; mapped contexts and those of
   unfinished calls are live and their own thread's; a live context outside the map is being
   worked on by its own thread; and the destructor leaves no context behind.
   */
  ghost predicate MemorySafe(s: State) {
    && !s.fault
    && (!s.destroyed ==> forall t :: t in s.lists ==> Own(s.contexts, t, s.lists[t]))
    && (forall t, c :: WorksOn(s, t, c) ==> Own(s.contexts, t, c))
    && (forall c :: IsLive(s.contexts, c) ==>
          var t := s.contexts[c].owner;
          !s.destroyed && (Entry(s, t) == Some(c) || WorksOn(s, t, c)))
  }

  lemma {:induction false} EveryRunIsMemorySafe(kind: NotificationType, states: seq<State>, steps: seq<Step>, k: nat)
    requires IsRun(kind, states, steps) && k <= |steps|
    ensures MemorySafe(states[k])
  {
    RunInvariant(kind, states, steps, k);
    var s := states[k];
    if !s.destroyed {
      forall t, c | WorksOn(s, t, c) ensures Own(s.contexts, t, c) {
        assert InvFor(s, t);
      }
      assert forall t :: InvFor(s, t) && t in s.lists ==> Own(s.contexts, t, s.lists[t]);
      forall c | IsLive(s.contexts, c) && Entry(s, s.contexts[c].owner) != Some(c)
        ensures WorksOn(s, s.contexts[c].owner, c)
      {
        var t := s.contexts[c].owner;
        assert InvFor(s, t) && Own(s.contexts, t, c);
        UnmappedIsWorkedOn(s, t, c);
      }
    }
  }

  lemma {:induction false} UnmappedIsWorkedOn(s: State, t: Thread, c: ContextId)
    requires InvFor(s, t) && Own(s.contexts, t, c) && Entry(s, t) != Some(c)
    ensures WorksOn(s, t, c)
  {
    var st := Stack(s, t);
    assert ContextOk(s.kind, s.contexts[c].list, c, Entry(s, t), st);
    if Iterators(st, c) > 0 {
      IteratorMeansFrame(st, c);
    } else {
      assert st[|st| - 1].context == c;
    }
  }

  lemma {:induction false} IteratorMeansFrame(st: seq<Frame>, c: ContextId)
    requires Iterators(st, c) > 0
    ensures exists i :: 0 <= i < |st| && st[i].context == c && Iterating(st[i], c)
  {
    if !Iterating(st[|st| - 1], c) {
      IteratorMeansFrame(st[..|st| - 1], c);
      var i :| 0 <= i < |st| - 1 && st[..|st| - 1][i].context == c && Iterating(st[..|st| - 1][i], c);
      assert st[i] == st[..|st| - 1][i];
    }
  }

  // ---------- Who is called, and until when ----------

  /** The step that finishes an AddObserver(o) of thread `t`. */
  predicate Registers(s: State, step: Step, t: Thread, o: Observer) {
    step == Continue(t) && Top(Stack(s, t)).Some? && Top(Stack(s, t)).value.Adding?
    && Top(Stack(s, t)).value.obs == o
  }

  /** The step by which a RemoveObserver(o) of thread `t` takes effect. */
  predicate Unregisters(s: State, step: Step, t: Thread, o: Observer) {
    || (step == StartRemove(t, o) && t !in s.lists)
    || (step == Continue(t) && Top(Stack(s, t)).Some? && Top(Stack(s, t)).value.Removing?
        && Top(Stack(s, t)).value.obs == o)
  }

  /** A step changes what a thread has registered only by finishing its own add or removal. */
  lemma {:induction false} RegisteredAfter(s: State, step: Step, t: Thread)
    requires step.Continue? ==> Stack(s, step.thread) != []
    ensures Registered(Apply(s, step), t)
            == if step == Continue(t) then NextEffect(s, t).registered else Registered(s, t)
  {
    hide EffectOf;
  }

  lemma {:induction false} PlainRemoveForgets(r: seq<Observer>, o: Observer, x: Observer)
    requires x in PlainRemove(r, o)
    ensures x in r
  {
  }

  lemma {:induction false} RemovalForgets(s: State, t: Thread)
    requires InvFor(s, t) && Top(Stack(s, t)).Some? && Top(Stack(s, t)).value.Removing?
    ensures var o := Top(Stack(s, t)).value.obs; o !in PlainRemove(Registered(s, t), o)
  {
    InnerCall(s, t);
    var f := Top(Stack(s, t)).value;
    RemoveRefines(s.contexts[f.context].list, f.obs);
  }

  /** One step adds an observer only by registering it and none survives its removal. */
  lemma {:induction false} StepRegisters(s: State, step: Step, t: Thread, o: Observer)
    requires Inv(s) && Enabled(s, step) && o in Registered(Apply(s, step), t)
    ensures Registers(s, step, t, o) || (o in Registered(s, t) && !Unregisters(s, step, t, o))
  {
    hide Apply, InvFor, PlainRemove, NextOf, EndOf, Add, Remove;
    RegisteredAfter(s, step, t);
    EnabledMeansAlive(s, step);
    assert InvFor(s, t);
    if step == Continue(t) && Top(Stack(s, t)).value.Removing? {
      RemovalForgets(s, t);
      PlainRemoveForgets(Registered(s, t), Top(Stack(s, t)).value.obs, o);
    } else if step == StartRemove(t, o) && t !in s.lists {
      UnmappedHasNone(s, t);
    }
  }

  lemma {:induction false} UnmappedHasNone(s: State, t: Thread)
    requires InvFor(s, t) && CanEnter(s, t) && t !in s.lists
    ensures Registered(s, t) == []
  {
  }

  /** The last add step for a registered observer, with no removal step since. */
  lemma {:induction false} LastRegisters(kind: NotificationType, states: seq<State>, steps: seq<Step>, k: nat,
                                         t: Thread, o: Observer) returns (i: nat)
    requires IsRun(kind, states, steps) && k <= |steps| && o in Registered(states[k], t)
    ensures i < k && Registers(states[i], steps[i], t, o)
    ensures forall m :: i < m < k ==> !Unregisters(states[m], steps[m], t, o)
  {
    hide Apply, Enabled, Inv, Registers, Unregisters;
    if k > 0 {
      RunInvariant(kind, states, steps, k - 1);
      StepRegisters(states[k - 1], steps[k - 1], t, o);
      i := k - 1;
      if !Registers(states[k - 1], steps[k - 1], t, o) {
        i := LastRegisters(kind, states, steps, k - 1, t, o);
      }
    } else {
      InitialRegistersNone(kind, t);
    }
  }

  lemma {:induction false} InitialRegistersNone(kind: NotificationType, t: Thread)
    ensures Registered(Init(kind), t) == []
  {
  }

  // ---------- Calls from their start to their return ----------

  /** A call that `t` starts with step `k` returns at state `j`, the first where its stack is no taller than before. */
  ghost predicate Returned(states: seq<State>, t: Thread, k: nat, j: nat) {
    && k < j < |states| && |Stack(states[j], t)| <= |Stack(states[k], t)|
    && forall m :: k < m < j ==> |Stack(states[m], t)| > |Stack(states[k], t)|
  }

  /** An AddObserver(o) of thread `t`, which has a message loop. */
  ghost predicate AddCall(states: seq<State>, steps: seq<Step>, i: nat, a: nat, t: Thread, o: Observer) {
    i < |steps| && Adds(steps[i], t, o) && Returned(states, t, i, a)
  }

  predicate Adds(step: Step, t: Thread, o: Observer) {
    step.StartAdd? && step.thread == t && step.obs == o && step.hasLoop
  }

  ghost predicate RemoveCall(states: seq<State>, steps: seq<Step>, r: nat, q: nat, t: Thread, o: Observer) {
    r < |steps| && steps[r] == StartRemove(t, o) && Returned(states, t, r, q)
  }

  /** By state `k` thread `t` has added `o`, and every removal of it that has returned did so before that. */
  ghost predicate Added(states: seq<State>, steps: seq<Step>, k: nat, t: Thread, o: Observer) {
    exists i: nat, a: nat :: AddedBy(states, steps, k, t, o, i, a)
  }

  ghost predicate AddedBy(states: seq<State>, steps: seq<Step>, k: nat, t: Thread, o: Observer, i: nat, a: nat) {
    && AddCall(states, steps, i, a, t, o) && a <= k
    && forall r: nat, q: nat :: RemoveCall(states, steps, r, q, t, o) && q <= k ==> q <= i
  }

  /** Every RemoveObserver(o) that `t` has started by state `k` has returned. */
  ghost predicate NoneRemoving(states: seq<State>, steps: seq<Step>, k: nat, t: Thread, o: Observer) {
    forall r: nat :: r < k && r < |steps| && steps[r] == StartRemove(t, o) ==>
      exists q: nat :: q <= k && RemoveCall(states, steps, r, q, t, o)
  }

  predicate Entering(top: Option<Frame>) {
    top.Some? && (top.value.Adding? || top.value.Removing?)
  }

  predicate Enters(step: Step, t: Thread, f: Frame) {
    match f
    case Adding(_, o) => Adds(step, t, o)
    case Removing(_, o) => step == StartRemove(t, o)
    case _ => false
  }

  /** Only its own steps move a thread that is in the middle of a call. */
  lemma {:induction false} BusyStays(s: State, step: Step, t: Thread)
    requires Enabled(s, step) && Stack(s, t) != [] && !Top(Stack(s, t)).value.Calling? && step != Continue(t)
    ensures Stack(Apply(s, step), t) == Stack(s, t)
  {
    hide ApplyContinue, ApplyNotify, ApplyDestroy, ListOf, IsLive, OwnerOf;
    if step.Notify? || step.DropTask? || step.Destroy? || step.Continue? {
      StackUntouched(s, step, t);
    }
  }

  lemma {:induction false} ContinueStack(s: State, t: Thread)
    requires Inv(s) && Enabled(s, Continue(t))
    ensures Stack(Apply(s, Continue(t)), t) == Pop(Stack(s, t)) + NextEffect(s, t).next
    ensures NextEffect(s, t).next == [] || !Entering(Some(NextEffect(s, t).next[0]))
    ensures |NextEffect(s, t).next| <= 1
    ensures !Entering(Top(Pop(Stack(s, t))))
  {
    hide InvFor, NextEffect, Apply, ApplyContinue, Entering, Pop;
    EnabledMeansAlive(s, Continue(t));
    assert InvFor(s, t);
    CallerIsOutside(s, t);
    ContinueIsApplied(s, t);
    EffectShapeOf(s, t);
    NextFrameOf(s, t);
  }

  /** Every call but the innermost is in a callback. */
  lemma CallerIsOutside(s: State, t: Thread)
    requires InvFor(s, t) && Stack(s, t) != []
    ensures !Entering(Top(Pop(Stack(s, t))))
  {
    hide ContextsOk, TopOk, Effective, Own;
    var st := Stack(s, t);
    if |st| > 1 {
      assert st[|st| - 2].Calling?;
    }
  }

  lemma NextFrameOf(s: State, t: Thread)
    requires Stack(s, t) != []
    ensures var next := NextEffect(s, t).next;
            |next| <= 1 && (next == [] || !Entering(Some(next[0])))
  {
    hide EffectOf, Entering;
    var f := Top(Stack(s, t)).value;
    NextFrame(f, t, ListOf(s, f.context), Entry(s, t) == Some(f.context), Registered(s, t));
  }

  lemma NextFrame(f: Frame, t: Thread, l: List, mapped: bool, reg: seq<Observer>)
    ensures var next := EffectOf(f, t, l, mapped, reg).next;
            |next| <= 1 && (next == [] || !Entering(Some(next[0])))
  {
    hide NextOf, EndOf, BeginOf, Add, Remove, PlainAdd, PlainRemove;
  }

  /** A call to add or remove comes about by entering it. */
  lemma {:induction false} EntryFrame(s: State, step: Step, t: Thread)
    requires Inv(s) && Enabled(s, step) && Entering(Top(Stack(Apply(s, step), t)))
    ensures var st, st' := Stack(s, t), Stack(Apply(s, step), t);
            st' == st || (CanEnter(s, t) && st' == st + [Top(st').value] && Enters(step, t, Top(st').value))
  {
    hide ApplyContinue, ApplyNotify, ApplyDestroy, ListOf, IsLive, OwnerOf, NextEffect, Inv;
    if step == Continue(t) {
      ContinueStack(s, t);
      assert false;
    } else if step.Notify? || step.DropTask? || step.Destroy? || step.Continue? {
      StackUntouched(s, step, t);
    }
  }

  /** The step that entered the call to add or remove that a thread is in. */
  lemma {:induction false} EnteredSince(kind: NotificationType, states: seq<State>, steps: seq<Step>, j: nat, i: nat,
                                        t: Thread) returns (a: nat)
    requires IsRun(kind, states, steps) && j <= i <= |steps|
    requires Entering(Top(Stack(states[i], t))) && !Entering(Top(Stack(states[j], t)))
    ensures j <= a < i && CanEnter(states[a], t) && Enters(steps[a], t, Top(Stack(states[i], t)).value)
    ensures forall m :: a < m <= i ==> Stack(states[m], t) == Stack(states[a], t) + [Top(Stack(states[i], t)).value]
  {
    hide Inv, Enabled, Apply, CanEnter, Enters, Stack;
    RunInvariant(kind, states, steps, i - 1);
    EntryFrame(states[i - 1], steps[i - 1], t);
    if Stack(states[i], t) == Stack(states[i - 1], t) {
      a := EnteredSince(kind, states, steps, j, i - 1, t);
    } else {
      a := i - 1;
    }
  }

  /** Where a RemoveObserver(o) stands that was started on top of `base`. */
  ghost predicate Within(st: seq<Frame>, base: seq<Frame>, o: Observer) {
    && |st| == |base| + 1 && st[..|base|] == base
    && match st[|base|]
       case Removing(_, x) => x == o
       case Removed(_) => true
       case _ => false
  }

  lemma {:induction false} RemovalStep(s: State, step: Step, t: Thread, base: seq<Frame>, o: Observer)
    requires Inv(s) && Enabled(s, step) && Within(Stack(s, t), base, o)
    ensures var st' := Stack(Apply(s, step), t);
            || st' == Stack(s, t)
            || (Within(st', base, o) && st'[|base|].Removed? && Unregisters(s, step, t, o))
            || (st' == base && Stack(s, t)[|base|].Removed?)
  {
    hide Apply, Inv, NextOf, EndOf, BeginOf, Add, Remove, PlainAdd, PlainRemove;
    if step == Continue(t) {
      ContinueStack(s, t);
      assert Pop(Stack(s, t)) == base;
      assert base + [] == base;
    } else {
      BusyStays(s, step, t);
    }
  }

  /** While a RemoveObserver(o) has not returned; it has unregistered `o` when it does. */
  lemma {:induction false} RemovalPhase(kind: NotificationType, states: seq<State>, steps: seq<Step>, k: nat, m: nat,
                                        t: Thread, o: Observer) returns (u: nat)
    requires IsRun(kind, states, steps) && k < m <= |steps| && steps[k] == StartRemove(t, o)
    requires forall x :: k < x < m ==> |Stack(states[x], t)| > |Stack(states[k], t)|
    ensures Within(Stack(states[m], t), Stack(states[k], t), o) || Stack(states[m], t) == Stack(states[k], t)
    ensures Stack(states[m], t) == Stack(states[k], t) || Stack(states[m], t)[|Stack(states[k], t)|].Removed?
            ==> k <= u < m && Unregisters(states[u], steps[u], t, o)
  {
    hide Inv, Enabled, Apply, Stack, Unregisters;
    var base := Stack(states[k], t);
    RunInvariant(kind, states, steps, m - 1);
    if m == k + 1 {
      u := k;
      RemovalStarts(states[k], t, o);
    } else {
      u := RemovalPhase(kind, states, steps, k, m - 1, t, o);
      RemovalStep(states[m - 1], steps[m - 1], t, base, o);
      if Within(Stack(states[m], t), base, o) && Stack(states[m - 1], t)[|base|].Removing?
         && Stack(states[m], t)[|base|].Removed? {
        u := m - 1;
      }
    }
  }

  lemma {:induction false} RemovalStarts(s: State, t: Thread, o: Observer)
    requires Enabled(s, StartRemove(t, o))
    ensures var st, st' := Stack(s, t), Stack(Apply(s, StartRemove(t, o)), t);
            || (st' == st && Unregisters(s, StartRemove(t, o), t, o))
            || (Within(st', st, o) && st'[|st|].Removing?)
  {
  }

  lemma {:induction false} AddPhase(kind: NotificationType, states: seq<State>, steps: seq<Step>, k: nat, m: nat,
                                    t: Thread, o: Observer)
    requires IsRun(kind, states, steps) && k < m <= |steps| && Adds(steps[k], t, o)
    requires forall x :: k < x < m ==> |Stack(states[x], t)| > |Stack(states[k], t)|
    ensures var base, st := Stack(states[k], t), Stack(states[m], t);
            || (st == base && Registers(states[m - 1], steps[m - 1], t, o))
            || (|st| == |base| + 1 && st[..|base|] == base && st[|base|].Adding? && st[|base|].obs == o)
  {
    hide Inv, Enabled, Apply, Stack;
    var base := Stack(states[k], t);
    RunInvariant(kind, states, steps, m - 1);
    if m == k + 1 {
      AddStarts(states[k], steps[k], t, o);
    } else {
      AddPhase(kind, states, steps, k, m - 1, t, o);
      AddStep(states[m - 1], steps[m - 1], t, base, o);
    }
  }

  lemma {:induction false} AddStarts(s: State, step: Step, t: Thread, o: Observer)
    requires Adds(step, t, o)
    ensures var st, st' := Stack(s, t), Stack(Apply(s, step), t);
            |st'| == |st| + 1 && st'[..|st|] == st && st'[|st|].Adding? && st'[|st|].obs == o
  {
    hide ApplyContinue, ApplyNotify, ApplyDestroy;
  }

  lemma {:induction false} AddStep(s: State, step: Step, t: Thread, base: seq<Frame>, o: Observer)
    requires Inv(s) && Enabled(s, step)
    requires var st := Stack(s, t);
             |st| == |base| + 1 && st[..|base|] == base && st[|base|].Adding? && st[|base|].obs == o
    ensures var st' := Stack(Apply(s, step), t);
            st' == Stack(s, t) || (st' == base && Registers(s, step, t, o))
  {
    hide Apply, Inv, NextOf, EndOf, BeginOf, Add, Remove, PlainAdd, PlainRemove;
    if step == Continue(t) {
      ContinueStack(s, t);
      assert Pop(Stack(s, t)) == base;
      assert base + [] == base;
    } else {
      BusyStays(s, step, t);
    }
  }

  /** A finished AddObserver has registered its observer. */
  lemma {:induction false} FinishesAdding(s: State, step: Step, t: Thread, o: Observer)
    requires Inv(s) && Enabled(s, step) && Registers(s, step, t, o)
    ensures o in Registered(Apply(s, step), t) && Stack(Apply(s, step), t) == Pop(Stack(s, t))
  {
    hide Apply, Inv, NextOf, EndOf, BeginOf, Add, Remove, PlainRemove;
    RegisteredAfter(s, step, t);
    ContinueStack(s, t);
    assert Pop(Stack(s, t)) + [] == Pop(Stack(s, t));
  }

  /** Once an AddObserver has returned its observer is registered. */
  lemma {:induction false} AddReturns(kind: NotificationType, states: seq<State>, steps: seq<Step>, i: nat, a: nat,
                                      t: Thread, o: Observer)
    requires IsRun(kind, states, steps) && AddCall(states, steps, i, a, t, o)
    ensures o in Registered(states[a], t) && Stack(states[a], t) == Stack(states[i], t)
  {
    hide Inv, Enabled, Apply, Stack, Registers, Registered;
    AddPhase(kind, states, steps, i, a, t, o);
    RunInvariant(kind, states, steps, a - 1);
    FinishesAdding(states[a - 1], steps[a - 1], t, o);
  }

  /** A removal that has returned by `k` did so before the last AddObserver began, if it was not undone since. */
  lemma {:induction false} RemovalIsBefore(kind: NotificationType, states: seq<State>, steps: seq<Step>, k: nat,
                                           t: Thread, o: Observer, i: nat, a: nat, f: Frame, r: nat, q: nat)
    requires IsRun(kind, states, steps) && i < a < k <= |steps| && q <= k
    requires CanEnter(states[i], t) && Adds(steps[i], t, o) && f.Adding?
    requires forall m :: i < m <= a ==> Stack(states[m], t) == Stack(states[i], t) + [f]
    requires Registers(states[a], steps[a], t, o)
    requires forall m :: a < m < k ==> !Unregisters(states[m], steps[m], t, o)
    requires RemoveCall(states, steps, r, q, t, o)
    ensures q <= i
  {
    hide Inv, Apply, Unregisters, Stack;
    var u := RemovalPhase(kind, states, steps, r, q, t, o);
    assert u <= a && r < a;
    assert Enabled(states[r], steps[r]);
    assert r < i;
    if i < q {
      var _ := RemovalPhase(kind, states, steps, r, i, t, o);
    }
  }

  /** An observer registered at state `k` was added by its own thread and not removed since. */
  lemma {:induction false} RegisteredSince(kind: NotificationType, states: seq<State>, steps: seq<Step>, k: nat,
                                           t: Thread, o: Observer)
    requires IsRun(kind, states, steps) && k <= |steps| && o in Registered(states[k], t)
    ensures Added(states, steps, k, t, o)
  {
    hide Inv, Enabled, Apply, Unregisters, Registered, RemoveCall;
    var a := LastRegisters(kind, states, steps, k, t, o);
    var i := EnteredSince(kind, states, steps, 0, a, t);
    var f := Top(Stack(states[a], t)).value;
    RunInvariant(kind, states, steps, a);
    FinishesAdding(states[a], steps[a], t, o);
    assert Stack(states[a + 1], t) == Stack(states[i], t);
    assert AddCall(states, steps, i, a + 1, t, o);
    forall r: nat, q: nat | RemoveCall(states, steps, r, q, t, o) && q <= k ensures q <= i {
      RemovalIsBefore(kind, states, steps, k, t, o, i, a, f, r, q);
    }
    assert AddedBy(states, steps, k, t, o, i, a + 1);
  }

  lemma {:induction false} StaysUnlessRemoved(s: State, step: Step, t: Thread, o: Observer)
    requires Enabled(s, step) && o in Registered(s, t) && !Unregisters(s, step, t, o)
    ensures o in Registered(Apply(s, step), t)
  {
    hide Apply, NextOf, EndOf, BeginOf, Add, Remove;
    RegisteredAfter(s, step, t);
  }

  lemma {:induction false} StaysRegisteredWithout(kind: NotificationType, states: seq<State>, steps: seq<Step>,
                                                  a: nat, k: nat, t: Thread, o: Observer)
    requires IsRun(kind, states, steps) && a <= k <= |steps| && o in Registered(states[a], t)
    requires forall m :: a <= m < k ==> !Unregisters(states[m], steps[m], t, o)
    ensures o in Registered(states[k], t)
  {
    hide Enabled, Apply, Registered, Unregisters;
    if a < k {
      StaysRegisteredWithout(kind, states, steps, a, k - 1, t, o);
      StaysUnlessRemoved(states[k - 1], steps[k - 1], t, o);
    }
  }

  /** The removal to which a removing step belongs. */
  lemma {:induction false} RemovalOf(kind: NotificationType, states: seq<State>, steps: seq<Step>, j: nat, m: nat,
                                     t: Thread, o: Observer) returns (r: nat)
    requires IsRun(kind, states, steps) && j <= m < |steps| && !Entering(Top(Stack(states[j], t)))
    requires Unregisters(states[m], steps[m], t, o)
    ensures j <= r <= m && steps[r] == StartRemove(t, o)
  {
    hide Enabled, Apply, Stack;
    r := m;
    if steps[m] != StartRemove(t, o) {
      r := EnteredSince(kind, states, steps, j, m, t);
    }
  }

  /**
   What a thread has registered is decided by its finished calls alone: unless a removal of `o` is still
   going on, `o` is registered if and only if an AddObserver(o) has returned and no RemoveObserver(o) since.
   */
  lemma {:induction false} RegisteredExactly(kind: NotificationType, states: seq<State>, steps: seq<Step>, k: nat,
                                             t: Thread, o: Observer)
    requires IsRun(kind, states, steps) && k <= |steps| && NoneRemoving(states, steps, k, t, o)
    ensures o in Registered(states[k], t) <==> Added(states, steps, k, t, o)
  {
    hide Enabled, Apply, Registered, Unregisters, RemoveCall, Stack;
    if o in Registered(states[k], t) {
      RegisteredSince(kind, states, steps, k, t, o);
    }
    if Added(states, steps, k, t, o) {
      var i: nat, a: nat :| AddedBy(states, steps, k, t, o, i, a);
      AddReturns(kind, states, steps, i, a, t, o);
      EntersOutside(kind, states, steps, i, t);
      forall m | a <= m < k ensures !Unregisters(states[m], steps[m], t, o) {
        if Unregisters(states[m], steps[m], t, o) {
          var r := RemovalOf(kind, states, steps, a, m, t, o);
          var q: nat :| q <= k && RemoveCall(states, steps, r, q, t, o);
          ReturnsLater(states, steps, r, q, t, o);
        }
      }
      StaysRegisteredWithout(kind, states, steps, a, k, t, o);
    }
  }

  lemma ReturnsLater(states: seq<State>, steps: seq<Step>, r: nat, q: nat, t: Thread, o: Observer)
    requires RemoveCall(states, steps, r, q, t, o)
    ensures r < q
  {
  }

  lemma EntersOutside(kind: NotificationType, states: seq<State>, steps: seq<Step>, i: nat, t: Thread)
    requires IsRun(kind, states, steps) && i < |steps| && steps[i].StartAdd? && steps[i].thread == t
    ensures !Entering(Top(Stack(states[i], t)))
  {
    assert Enabled(states[i], steps[i]);
  }

  lemma NotAddedBy(states: seq<State>, steps: seq<Step>, r: nat, q: nat, t: Thread, o: Observer, i: nat, a: nat)
    requires RemoveCall(states, steps, r, q, t, o)
    ensures !AddedBy(states, steps, q, t, o, i, a)
  {
  }

  /** Once a RemoveObserver has returned its observer is not registered on that thread. */
  lemma {:induction false} RemoveReturns(kind: NotificationType, states: seq<State>, steps: seq<Step>, r: nat, q: nat,
                                         t: Thread, o: Observer)
    requires IsRun(kind, states, steps) && RemoveCall(states, steps, r, q, t, o)
    ensures o !in Registered(states[q], t)
  {
    hide Enabled, Apply, Registered, Stack;
    forall i: nat, a: nat ensures !AddedBy(states, steps, q, t, o, i, a) {
      NotAddedBy(states, steps, r, q, t, o, i, a);
    }
    if o in Registered(states[q], t) {
      RegisteredSince(kind, states, steps, q, t, o);
    }
  }

  /** Thread 1 adds observer 7 and removes it again before a Notify, which then has no thread to post to. */
  lemma {:induction false} AddedAndRemoved(kind: NotificationType) returns (states: seq<State>, steps: seq<Step>)
    ensures IsRun(kind, states, steps) && |steps| == 6
    ensures AddCall(states, steps, 0, 2, 1, 7) && RemoveCall(states, steps, 2, 5, 1, 7) && steps[5] == Notify(1)
    ensures 7 in Registered(states[2], 1) && Registered(states[5], 1) == []
    ensures states[6].tasks == {} && states[6].calls == [] && !IsLive(states[6].contexts, 0)
  {
    hide IsRun, Apply, Enabled;
    var s0 := Init(kind);
    var s1, s2 := AddingSteps(kind);
    var s3, s4, s5 := RemovingSteps(kind, s2);
    var s6 := NotifyingStep(s5);
    steps := [StartAdd(1, 7, true, 0), Continue(1), StartRemove(1, 7), Continue(1), Continue(1), Notify(1)];
    states := [s0, s1, s2, s3, s4, s5, s6];
    SixSteps(kind, states, steps);
  }

  /** The state once thread 1 has added observer 7. */
  ghost predicate SevenAdded(kind: NotificationType, s: State) {
    && s.kind == kind && s.lists == map[1 := 0]
    && s.contexts == map[0 := Context(1, List([Some(7)], 0, kind), true)]
    && s.tasks == {} && s.stacks == map[1 := []] && !s.destroyed && s.registered == map[1 := [7]] && s.calls == []
  }

  lemma {:induction false} AddingSteps(kind: NotificationType) returns (s1: State, s2: State)
    ensures Enabled(Init(kind), StartAdd(1, 7, true, 0)) && s1 == Apply(Init(kind), StartAdd(1, 7, true, 0))
    ensures Enabled(s1, Continue(1)) && s2 == Apply(s1, Continue(1))
    ensures |Stack(s1, 1)| == 1 && SevenAdded(kind, s2)
  {
    s1 := Apply(Init(kind), StartAdd(1, 7, true, 0));
    assert Stack(s1, 1) == [Adding(0, 7)];
    s2 := Apply(s1, Continue(1));
    assert NextEffect(s1, 1).list == List([Some(7)], 0, kind);
    assert NextEffect(s1, 1).registered == [7] && Registered(s2, 1) == [7];
    assert Pop([Adding(0, 7)]) + [] == [];
  }

  lemma {:induction false} NotifyingStep(s5: State) returns (s6: State)
    requires s5.lists == map[] && s5.tasks == {} && s5.calls == [] && Stack(s5, 1) == [] && !s5.destroyed
    ensures Enabled(s5, Notify(1)) && s6 == Apply(s5, Notify(1))
    ensures s6.tasks == {} && s6.calls == [] && s6.contexts == s5.contexts && Stack(s6, 1) == []
  {
    hide NextEffect;
    s6 := Apply(s5, Notify(1));
  }

  lemma {:induction false} RemovingSteps(kind: NotificationType, s2: State) returns (s3: State, s4: State, s5: State)
    requires SevenAdded(kind, s2)
    ensures Enabled(s2, StartRemove(1, 7)) && s3 == Apply(s2, StartRemove(1, 7))
    ensures Enabled(s3, Continue(1)) && s4 == Apply(s3, Continue(1))
    ensures Enabled(s4, Continue(1)) && s5 == Apply(s4, Continue(1))
    ensures Stack(s2, 1) == [] && |Stack(s3, 1)| == 1 && |Stack(s4, 1)| == 1 && Stack(s5, 1) == []
    ensures s5.lists == map[] && s5.tasks == {} && s5.calls == [] && !s5.destroyed && Registered(s5, 1) == []
    ensures !IsLive(s5.contexts, 0)
  {
    hide ApplyContinue;
    s3 := Apply(s2, StartRemove(1, 7));
    assert s3.lists == map[];
    assert Stack(s3, 1) == [Removing(0, 7)];
    assert s3.stacks == map[1 := [Removing(0, 7)]];
    s4 := RemovingStep(kind, s3);
    s5 := DeletingStep(kind, s4);
  }

  /** Thread 1 is at `f` of its RemoveObserver(7), with these slots left in its context. */
  ghost predicate SevenLeaving(kind: NotificationType, s: State, f: Frame, slots: seq<Option<Observer>>,
                               reg: seq<Observer>)
  {
    && s.lists == map[] && s.contexts == map[0 := Context(1, List(slots, 0, kind), true)]
    && s.tasks == {} && s.stacks == map[1 := [f]] && !s.destroyed && s.registered == map[1 := reg] && s.calls == []
  }

  lemma {:induction false} RemovingStep(kind: NotificationType, s3: State) returns (s4: State)
    requires SevenLeaving(kind, s3, Removing(0, 7), [Some(7)], [7])
    ensures Enabled(s3, Continue(1)) && s4 == Apply(s3, Continue(1))
    ensures SevenLeaving(kind, s4, Removed(0), [], [])
  {
    s4 := Apply(s3, Continue(1));
    FirstIndexUnique([Some(7)], Some(7), 0);
    FirstIndexUnique([7], 7, 0);
    assert Without([Some(7)], 0) == [] && Without([7], 0) == [];
    assert NextEffect(s3, 1).list == List([], 0, kind);
    assert NextEffect(s3, 1).registered == [];
    assert Pop([Removing(0, 7)]) + [Removed(0)] == [Removed(0)];
  }

  lemma {:induction false} DeletingStep(kind: NotificationType, s4: State) returns (s5: State)
    requires SevenLeaving(kind, s4, Removed(0), [], [])
    ensures Enabled(s4, Continue(1)) && s5 == Apply(s4, Continue(1))
    ensures Stack(s5, 1) == [] && s5.lists == map[] && s5.tasks == {} && s5.calls == [] && !s5.destroyed
    ensures Registered(s5, 1) == [] && !IsLive(s5.contexts, 0)
  {
    s5 := Apply(s4, Continue(1));
    assert Pop([Removed(0)]) + [] == [];
  }

  lemma SixSteps(kind: NotificationType, states: seq<State>, steps: seq<Step>)
    requires |states| == 7 && |steps| == 6 && states[0] == Init(kind)
    requires Enabled(states[0], steps[0]) && states[1] == Apply(states[0], steps[0])
    requires Enabled(states[1], steps[1]) && states[2] == Apply(states[1], steps[1])
    requires Enabled(states[2], steps[2]) && states[3] == Apply(states[2], steps[2])
    requires Enabled(states[3], steps[3]) && states[4] == Apply(states[3], steps[3])
    requires Enabled(states[4], steps[4]) && states[5] == Apply(states[4], steps[4])
    requires Enabled(states[5], steps[5]) && states[6] == Apply(states[5], steps[5])
    ensures IsRun(kind, states, steps)
  {
    hide Apply, Enabled, Init;
  }

  /** The callback a step starts, if any. */
  function Started(s: State, step: Step): Option<Call> {
    if step.Continue? && Top(Stack(s, step.thread)).Some? && Top(Stack(s, step.thread)).value.Looping?
    then
      var f := Top(Stack(s, step.thread)).value;
      var r := NextOf(ListOf(s, f.context), f.it).0;
      if r == None then None else Some(Call(f.notify, step.thread, r.value))
    else None
  }

  /** `Started` is what a step appends to the history of callbacks. */
  lemma {:induction false} CallsAfter(s: State, step: Step)
    requires step.Continue? ==> Stack(s, step.thread) != []
    ensures Apply(s, step).calls == s.calls + if Started(s, step) == None then [] else [Started(s, step).value]
  {
    hide NextOf, EndOf, BeginOf, Add, Remove, PlainAdd, PlainRemove;
    assert s.calls + [] == s.calls;
  }

  lemma {:induction false} FoundIsRegistered(s: State, t: Thread)
    requires InvFor(s, t) && Stack(s, t) != [] && Top(Stack(s, t)).value.Looping?
    ensures var f := Top(Stack(s, t)).value;
            var r := NextOf(ListOf(s, f.context), f.it).0;
            r != None ==> r.value in Registered(s, t)
  {
    hide InvFor, Live, Valid, Iterators;
    InnerCall(s, t);
    var f := Top(Stack(s, t)).value;
    var l := s.contexts[f.context].list;
    var r := NextOf(l, f.it).0;
    if r != None {
      LiveMembers(l.slots, r.value);
    }
  }

  lemma {:induction false} CallIsRegistered(s: State, step: Step)
    requires Inv(s) && Enabled(s, step) && Started(s, step).Some?
    ensures Started(s, step).value.obs in Registered(s, Started(s, step).value.thread)
  {
    hide Apply, InvFor, NextOf, Registered;
    EnabledMeansAlive(s, step);
    FoundIsRegistered(s, step.thread);
  }

  /**
   In every run an observer is called only on a thread where an AddObserver of it has returned, and no
   RemoveObserver of it that has returned since that AddObserver began.
   */
  lemma {:induction false} CalledOnlyWhileRegistered(kind: NotificationType, states: seq<State>,
                                                     steps: seq<Step>, k: nat, call: Call)
    requires IsRun(kind, states, steps) && k < |steps|
    requires call in multiset(states[k + 1].calls) - multiset(states[k].calls)
    ensures steps[k] == Continue(call.thread) && Added(states, steps, k, call.thread, call.obs)
  {
    hide Inv, Apply, Registered, NextOf, Added;
    RunInvariant(kind, states, steps, k);
    assert Enabled(states[k], steps[k]);
    CallsAfter(states[k], steps[k]);
    CallIsRegistered(states[k], steps[k]);
    RegisteredSince(kind, states, steps, k, call.thread, call.obs);
  }

  // ---------- Exactly one call per Notify ----------

  /** Frame `f` carries out Notify number `n`. */
  predicate Serves(f: Frame, n: nat) {
    (f.Checked? || f.Looping? || f.Calling? || f.Ending?) && f.notify == n
  }

  function Count(calls: seq<Call>, call: Call): nat {
    multiset(calls)[call]
  }

  /** A frame serving `n` has called `o` once if it is past `o`'s slot and not yet otherwise. */
  ghost predicate OnTrack(f: Frame, c: ContextId, slots: seq<Option<Observer>>, o: Observer, count: nat) {
    && f.context == c
    && match f
       case Checked(_, _) => count == 0
       case Looping(_, _, it) => ItOnTrack(it, slots, o, count)
       case Calling(_, _, it, _) => ItOnTrack(it, slots, o, count)
       case Ending(_, _) => count == 1
       case _ => false
  }

  ghost predicate ItOnTrack(it: Iter, slots: seq<Option<Observer>>, o: Observer, count: nat) {
    var j := FirstIndex(slots, Some(o));
    && (it.limit.Some? ==> j < it.limit.value)
    && count == if j < it.index then 1 else 0
  }

  ghost predicate Active(st: seq<Frame>, n: nat, c: ContextId, slots: seq<Option<Observer>>, o: Observer, count: nat) {
    exists i :: ActiveAt(st, i, n, c, slots, o, count)
  }

  ghost predicate ActiveAt(st: seq<Frame>, i: int, n: nat, c: ContextId, slots: seq<Option<Observer>>,
                           o: Observer, count: nat)
  {
    && 0 <= i < |st| && Serves(st[i], n) && OnTrack(st[i], c, slots, o, count)
    && forall k :: 0 <= k < |st| && k != i ==> !Serves(st[k], n)
  }

  ghost predicate Idle(st: seq<Frame>, n: nat) {
    forall k :: 0 <= k < |st| ==> !Serves(st[k], n)
  }

  /** Thread `t` is about to remove `o`. */
  predicate AboutToRemove(s: State, t: Thread, o: Observer) {
    Top(Stack(s, t)).Some? && Top(Stack(s, t)).value.Removing? && Top(Stack(s, t)).value.obs == o
  }

  ghost predicate Held(s: State, t: Thread, c: ContextId, o: Observer) {
    && Own(s.contexts, t, c) && Some(o) in s.contexts[c].list.slots
    && (Entry(s, t) == Some(c) || AboutToRemove(s, t, o))
  }

  /** Where Notify `n` stands for observer `o` of thread `t`: posted, being run, or done. */
  ghost predicate Progress(s: State, n: nat, t: Thread, c: ContextId, o: Observer) {
    var count := Count(s.calls, Call(n, t, o));
    && n < s.notifies
    && (forall task :: task in s.tasks && task.notify == n && task.target == t ==> task == Task(t, c, n))
    && if Task(t, c, n) in s.tasks then Held(s, t, c, o) && Idle(Stack(s, t), n) && count == 0
       else
         || (Held(s, t, c, o) && Active(Stack(s, t), n, c, s.contexts[c].list.slots, o, count))
         || (Idle(Stack(s, t), n) && count == 1)
  }

  /** A step that leaves thread `t`'s contexts, map entry, stack and calls of `n` alone. */
  lemma {:induction false} ProgressUndisturbed(s: State, s': State, n: nat, t: Thread, c: ContextId, o: Observer)
    requires Progress(s, n, t, c, o) && s'.notifies >= s.notifies
    requires Stack(s', t) == Stack(s, t) && Entry(s', t) == Entry(s, t)
    requires Own(s.contexts, t, c) ==> c in s'.contexts && s'.contexts[c] == s.contexts[c]
    requires Count(s'.calls, Call(n, t, o)) == Count(s.calls, Call(n, t, o))
    requires forall task: Task :: task.notify == n && task.target == t ==> (task in s'.tasks <==> task in s.tasks)
    ensures Progress(s', n, t, c, o)
  {
  }

  lemma {:induction false} CountAppend(calls: seq<Call>, x: Call, call: Call)
    ensures Count(calls + [x], call) == Count(calls, call) + if x == call then 1 else 0
  {
  }

  /** Entering a call that serves another Notify or none. */
  lemma {:induction false} ProgressEntering(s: State, s': State, n: nat, t: Thread, c: ContextId, o: Observer, f: Frame)
    requires Progress(s, n, t, c, o) && s'.notifies == s.notifies && s'.calls == s.calls
    requires Stack(s', t) == Stack(s, t) + [f] && !Serves(f, n)
    requires Own(s.contexts, t, c) ==> c in s'.contexts && s'.contexts[c] == s.contexts[c]
    requires Held(s, t, c, o) ==> Entry(s', t) == Some(c) || f == Removing(c, o)
    requires forall task: Task :: task.notify == n && task.target == t ==> (task in s'.tasks <==> task in s.tasks)
    ensures Progress(s', n, t, c, o)
  {
    var st, st' := Stack(s, t), Stack(s', t);
    assert forall k :: 0 <= k < |st| ==> st'[k] == st[k];
    if Task(t, c, n) !in s.tasks && Held(s, t, c, o)
       && Active(st, n, c, s.contexts[c].list.slots, o, Count(s.calls, Call(n, t, o))) {
      var i :| ActiveAt(st, i, n, c, s.contexts[c].list.slots, o, Count(s.calls, Call(n, t, o)));
      assert ActiveAt(st', i, n, c, s.contexts[c].list.slots, o, Count(s.calls, Call(n, t, o)));
    }
  }

  /** Running the posted task itself. */
  lemma {:induction false} ProgressStarting(s: State, n: nat, t: Thread, c: ContextId, o: Observer)
    requires Progress(s, n, t, c, o) && Task(t, c, n) in s.tasks && CanEnter(s, t)
    ensures Progress(ApplyRunTask(s, Task(t, c, n)), n, t, c, o)
  {
    var s' := ApplyRunTask(s, Task(t, c, n));
    var st := Stack(s, t);
    assert Stack(s', t) == st + [Checked(c, n)];
    assert ActiveAt(Stack(s', t), |st|, n, c, s.contexts[c].list.slots, o, 0);
  }

  /** The innermost call, serving another Notify or none, takes a step above the one serving `n`. */
  lemma {:induction false} ProgressAbove(s: State, s': State, n: nat, t: Thread, c: ContextId, o: Observer,
                                         next: seq<Frame>)
    requires Progress(s, n, t, c, o) && s'.notifies == s.notifies && s'.tasks == s.tasks
    requires Stack(s, t) != [] && !Serves(Top(Stack(s, t)).value, n)
    requires Stack(s', t) == Pop(Stack(s, t)) + next && |next| <= 1 && (next != [] ==> !Serves(next[0], n))
    requires Count(s'.calls, Call(n, t, o)) == Count(s.calls, Call(n, t, o))
    requires Held(s, t, c, o) ==> Held(s', t, c, o)
    requires Held(s, t, c, o) && !Idle(Stack(s, t), n)
             ==> FirstIndex(s'.contexts[c].list.slots, Some(o)) == FirstIndex(s.contexts[c].list.slots, Some(o))
    ensures Progress(s', n, t, c, o)
  {
    hide Count, ActiveAt;
    var st, st' := Stack(s, t), Stack(s', t);
    var count := Count(s.calls, Call(n, t, o));
    assert Idle(st, n) ==> Idle(st', n) by {
      assert forall k :: 0 <= k < |st| - 1 ==> st'[k] == st[k];
    }
    if Task(t, c, n) !in s.tasks && Held(s, t, c, o) && Active(st, n, c, s.contexts[c].list.slots, o, count) {
      var i :| ActiveAt(st, i, n, c, s.contexts[c].list.slots, o, count);
      ActiveBelow(st, st', i, n, c, s.contexts[c].list.slots, s'.contexts[c].list.slots, o, count, next);
    }
  }

  lemma {:induction false} ActiveBelow(st: seq<Frame>, st': seq<Frame>, i: int, n: nat, c: ContextId,
                                       slots: seq<Option<Observer>>, slots': seq<Option<Observer>>,
                                       o: Observer, count: nat, next: seq<Frame>)
    requires ActiveAt(st, i, n, c, slots, o, count) && !Serves(Top(st).value, n)
    requires st' == Pop(st) + next && |next| <= 1 && (next != [] ==> !Serves(next[0], n))
    requires !Idle(st, n) ==> FirstIndex(slots', Some(o)) == FirstIndex(slots, Some(o))
    ensures ActiveAt(st', i, n, c, slots', o, count)
  {
    assert Serves(st[i], n);
    assert i < |st| - 1;
    assert forall k :: 0 <= k < |st| - 1 ==> st'[k] == st[k];
  }

  lemma {:induction false} SameFirstIndex(a: seq<Option<Observer>>, b: seq<Option<Observer>>, o: Observer)
    requires Some(o) in a && |a| <= |b|
    requires forall k :: 0 <= k < |a| && (a[k] == Some(o) || b[k] == Some(o)) ==> a[k] == b[k]
    ensures Some(o) in b && FirstIndex(b, Some(o)) == FirstIndex(a, Some(o))
  {
    FirstIndexUnique(b, Some(o), FirstIndex(a, Some(o)));
  }

  lemma {:induction false} AddKeeps(l: List, x: Observer, o: Observer)
    requires Some(o) in l.slots
    ensures Some(o) in Add(l, x).slots && FirstIndex(Add(l, x).slots, Some(o)) == FirstIndex(l.slots, Some(o))
  {
    SameFirstIndex(l.slots, Add(l, x).slots, o);
  }

  lemma {:induction false} RemoveKeeps(l: List, x: Observer, o: Observer)
    requires Some(o) in l.slots && x != o
    ensures Some(o) in Remove(l, x).slots
    ensures l.depth > 0 ==> FirstIndex(Remove(l, x).slots, Some(o)) == FirstIndex(l.slots, Some(o))
  {
    if l.depth > 0 {
      SameFirstIndex(l.slots, Remove(l, x).slots, o);
    } else {
      var i, j := FirstIndex(l.slots, Some(x)), FirstIndex(l.slots, Some(o));
      if i < |l.slots| {
        assert Remove(l, x).slots[if j < i then j else j - 1] == Some(o);
      }
    }
  }

  lemma {:induction false} EndKeeps(l: List, o: Observer)
    requires Some(o) in l.slots
    ensures Some(o) in EndOf(l).slots && (l.depth != 1 ==> EndOf(l).slots == l.slots)
  {
    LiveMembers(l.slots, o);
    LiveOfPacked(Live(l.slots));
    LiveMembers(Packed(Live(l.slots)), o);
  }

  lemma {:induction false} FrameMeansIterator(st: seq<Frame>, i: nat, c: ContextId)
    requires i < |st| && Iterating(st[i], c)
    ensures Iterators(st, c) > 0
  {
    if i < |st| - 1 {
      FrameMeansIterator(st[..|st| - 1], i, c);
    }
  }

  /** What a thread's own step does to a context `c` that holds `o`, unless it removes `o`. */
  ghost predicate Keeps(s: State, s': State, t: Thread, c: ContextId, o: Observer) {
    && Own(s'.contexts, t, c) && Some(o) in s'.contexts[c].list.slots
    && (Entry(s, t) == Some(c) ==> Entry(s', t) == Some(c))
    && (c in s.contexts && Iterators(Pop(Stack(s, t)), c) > 0
        ==> FirstIndex(s'.contexts[c].list.slots, Some(o)) == FirstIndex(s.contexts[c].list.slots, Some(o)))
  }

  /** The innermost call's effect on the list it works on, if that holds `o` and is not about to lose it. */
  lemma {:induction false} EffectKeeps(s: State, t: Thread, o: Observer)
    requires InvFor(s, t) && Stack(s, t) != [] && !AboutToRemove(s, t, o)
    requires Some(o) in ListOf(s, Top(Stack(s, t)).value.context).slots
    ensures var c, e := Top(Stack(s, t)).value.context, NextEffect(s, t);
            && Own(s.contexts, t, c) && !e.delete && !e.unmap && Some(o) in e.list.slots
            && (Iterators(Pop(Stack(s, t)), c) > 0
                ==> FirstIndex(e.list.slots, Some(o)) == FirstIndex(s.contexts[c].list.slots, Some(o)))
  {
    hide InvFor, NextOf, Add, Remove, EndOf, Live, Valid;
    InnerCall(s, t);
    var f := Top(Stack(s, t)).value;
    var l := s.contexts[f.context].list;
    if f.Adding? {
      AddKeeps(l, f.obs, o);
    } else if f.Removing? {
      RemoveKeeps(l, f.obs, o);
    } else if f.Ending? {
      EndKeeps(l, o);
    }
  }

  lemma {:induction false} ContinueKeeps(s: State, t: Thread, c: ContextId, o: Observer)
    requires InvFor(s, t) && Stack(s, t) != []
    requires Own(s.contexts, t, c) && Some(o) in s.contexts[c].list.slots && !AboutToRemove(s, t, o)
    ensures Keeps(s, ApplyContinue(s, t), t, c, o)
  {
    hide InvFor, EffectOf, ApplyEffect, OnlyTouches;
    InnerCall(s, t);
    EveryCallFits(s, t);
    var d := Top(Stack(s, t)).value.context;
    EffectShape(s, t, d, NextEffect(s, t));
    if d == c {
      EffectKeeps(s, t, o);
    }
  }

  /** Only a call that serves `n` is followed by one that does. */
  lemma {:induction false} ContinueFrames(s: State, t: Thread, n: nat)
    requires Stack(s, t) != []
    ensures |NextEffect(s, t).next| <= 1
    ensures NextEffect(s, t).next != [] && Serves(NextEffect(s, t).next[0], n) ==> Serves(Top(Stack(s, t)).value, n)
    ensures forall call :: call in NextEffect(s, t).calls ==>
              call.thread == t && Serves(Top(Stack(s, t)).value, call.notify)
  {
    hide NextOf, Add, Remove, EndOf, BeginOf, PlainAdd, PlainRemove;
  }

  /** One step of an iterator towards, onto or past the slot of `o`. */
  lemma {:induction false} NextOnTrack(l: List, it: Iter, o: Observer, count: nat)
    requires Distinct(l.slots) && Some(o) in l.slots && ItOnTrack(it, l.slots, o, count)
    ensures var (r, it') := NextOf(l, it);
            if r == None then count == 1
            else ItOnTrack(it', l.slots, o, count + if r.value == o then 1 else 0)
  {
  }

  /** The call serving `n` takes a step itself. */
  lemma {:induction false} ProgressOwn(s: State, n: nat, t: Thread, c: ContextId, o: Observer)
    requires InvFor(s, t) && Stack(s, t) != [] && Serves(Top(Stack(s, t)).value, n)
    requires Progress(s, n, t, c, o)
    ensures Progress(ApplyContinue(s, t), n, t, c, o)
  {
    hide EffectOf, ApplyContinue, InvFor, Count;
    var st, s' := Stack(s, t), ApplyContinue(s, t);
    var rest, f, e := Pop(st), Top(st).value, NextEffect(s, t);
    var slots, count := ListOf(s, c).slots, Count(s.calls, Call(n, t, o));
    assert st[|st| - 1] == f;
    var i :| ActiveAt(st, i, n, c, slots, o, count);
    assert i == |st| - 1;
    ServingStep(s, n, t, c, o, count);
    EffectShapeOf(s, t);
    var st', count' := Stack(s', t), Count(s'.calls, Call(n, t, o));
    assert forall k :: 0 <= k < |rest| ==> st'[k] == st[k];
    if f.Ending? {
      assert Idle(st', n);
    } else {
      assert ActiveAt(st', |rest|, n, c, s'.contexts[c].list.slots, o, count');
    }
  }

  lemma {:induction false} EffectShapeOf(s: State, t: Thread)
    requires InvFor(s, t) && Stack(s, t) != []
    ensures var c, e, s' := Top(Stack(s, t)).value.context, NextEffect(s, t), ApplyContinue(s, t);
            && s'.contexts == s.contexts[c := Context(t, e.list, !e.delete)]
            && Entry(s', t) == (if e.unmap then None else Entry(s, t))
            && Stack(s', t) == Pop(Stack(s, t)) + e.next
            && s'.tasks == s.tasks && s'.notifies == s.notifies && s'.calls == s.calls + e.calls
  {
    hide InvFor, EffectOf, OnlyTouches;
    InnerCall(s, t);
    EveryCallFits(s, t);
    EffectShape(s, t, Top(Stack(s, t)).value.context, NextEffect(s, t));
  }

  /** The effect of a call serving `n` that is on track: its successor is too, or it is done. */
  ghost predicate ServedBy(s: State, n: nat, t: Thread, c: ContextId, o: Observer, f: Frame, e: Effect) {
    var count' := Count(s.calls + e.calls, Call(n, t, o));
    && !e.delete && !e.unmap && Some(o) in e.list.slots && |e.next| == 1
    && if f.Ending? then e.next == [Ended(c)] && count' == 1
       else Serves(e.next[0], n) && OnTrack(e.next[0], c, e.list.slots, o, count')
  }

  lemma {:induction false} ServingStep(s: State, n: nat, t: Thread, c: ContextId, o: Observer, count: nat)
    requires InvFor(s, t) && Stack(s, t) != [] && Serves(Top(Stack(s, t)).value, n)
    requires Some(o) in ListOf(s, c).slots
    requires OnTrack(Top(Stack(s, t)).value, c, ListOf(s, c).slots, o, count)
    requires count == Count(s.calls, Call(n, t, o))
    ensures ServedBy(s, n, t, c, o, Top(Stack(s, t)).value, NextEffect(s, t))
  {
    hide InvFor;
    InnerCall(s, t);
    assert s.calls + [] == s.calls;
    ServedByEffect(s, n, t, c, o, count, Top(Stack(s, t)).value, ListOf(s, c), Entry(s, t) == Some(c),
                   Registered(s, t));
  }

  lemma {:induction false} ServedByEffect(s: State, n: nat, t: Thread, c: ContextId, o: Observer, count: nat,
                                           f: Frame, l: List, mapped: bool, reg: seq<Observer>)
    requires Valid(l) && Some(o) in l.slots && Serves(f, n) && OnTrack(f, c, l.slots, o, count)
    requires count == Count(s.calls, Call(n, t, o)) && s.calls + [] == s.calls
    ensures ServedBy(s, n, t, c, o, f, EffectOf(f, t, l, mapped, reg))
  {
    hide NextOf, EndOf, Live, Count, Add, Remove, PlainAdd, PlainRemove;
    match f {
      case Checked(_, _) =>
      case Looping(_, _, it) =>
        NextOnTrack(l, it, o, count);
        var r := NextOf(l, it).0;
        if r != None {
          CountAppend(s.calls, Call(n, t, r.value), Call(n, t, o));
        }
      case Calling(_, _, _, _) =>
      case Ending(_, _) => EndKeeps(l, o);
    }
  }

  /** Another call of the thread is innermost and takes a step. */
  lemma {:induction false} ProgressOther(s: State, n: nat, t: Thread, c: ContextId, o: Observer)
    requires InvFor(s, t) && Stack(s, t) != [] && !Serves(Top(Stack(s, t)).value, n) && !AboutToRemove(s, t, o)
    requires Progress(s, n, t, c, o)
    ensures Progress(ApplyContinue(s, t), n, t, c, o)
  {
    hide InvFor, EffectOf, ApplyContinue, Progress;
    var e := NextEffect(s, t);
    ContinueFrames(s, t, n);
    EffectShapeOf(s, t);
    OtherCallsDoNotCount(s.calls, e.calls, Call(n, t, o));
    if Held(s, t, c, o) {
      ContinueKeeps(s, t, c, o);
      if !Idle(Stack(s, t), n) {
        ServingBelow(s, n, t, c, o);
      }
    }
    ProgressAbove(s, ApplyContinue(s, t), n, t, c, o, e.next);
  }

  lemma {:induction false} OtherCallsDoNotCount(calls: seq<Call>, more: seq<Call>, call: Call)
    requires call !in more
    ensures Count(calls + more, call) == Count(calls, call)
  {
  }

  lemma {:induction false} ServingBelow(s: State, n: nat, t: Thread, c: ContextId, o: Observer)
    requires InvFor(s, t) && Stack(s, t) != [] && !Serves(Top(Stack(s, t)).value, n)
    requires Progress(s, n, t, c, o) && !Idle(Stack(s, t), n)
    ensures Iterators(Pop(Stack(s, t)), c) > 0
  {
    var st := Stack(s, t);
    var i :| ActiveAt(st, i, n, c, s.contexts[c].list.slots, o, Count(s.calls, Call(n, t, o)));
    assert i < |st| - 1 && st[i].Calling?;
    assert Pop(st)[i] == st[i];
    FrameMeansIterator(Pop(st), i, c);
  }

  /** Thread `t` enters AddObserver. */
  lemma {:induction false} ProgressAdds(s: State, n: nat, t: Thread, c: ContextId, o: Observer,
                                        x: Observer, hasLoop: bool, newId: ContextId)
    requires newId !in s.contexts && CanEnter(s, t) && Progress(s, n, t, c, o)
    ensures Progress(ApplyStartAdd(s, t, x, hasLoop, newId), n, t, c, o)
  {
    hide Progress;
    if hasLoop {
      ProgressEntering(s, ApplyStartAdd(s, t, x, hasLoop, newId), n, t, c, o,
                       Adding(if t in s.lists then s.lists[t] else newId, x));
    }
  }

  /** Thread `t` enters RemoveObserver. */
  lemma {:induction false} ProgressRemoves(s: State, n: nat, t: Thread, c: ContextId, o: Observer, x: Observer)
    requires CanEnter(s, t) && Progress(s, n, t, c, o)
    ensures Progress(ApplyStartRemove(s, t, x), n, t, c, o)
  {
    hide Progress;
    if t in s.lists {
      ProgressEntering(s, ApplyStartRemove(s, t, x), n, t, c, o, Removing(s.lists[t], x));
    }
  }

  lemma {:induction false} ProgressRunsTask(s: State, task: Task, n: nat, t: Thread, c: ContextId, o: Observer)
    requires task in s.tasks && CanEnter(s, t) && task.target == t && Progress(s, n, t, c, o)
    ensures Progress(ApplyRunTask(s, task), n, t, c, o)
  {
    if task.notify == n {
      ProgressStarting(s, n, t, c, o);
    } else if Entry(s, t) == Some(task.context) {
      ProgressEntering(s, ApplyRunTask(s, task), n, t, c, o, Checked(task.context, task.notify));
    } else {
      ProgressUndisturbed(s, ApplyRunTask(s, task), n, t, c, o);
    }
  }

  /** A step of thread `t` itself. */
  lemma {:induction false} ProgressActor(s: State, step: Step, n: nat, t: Thread, c: ContextId, o: Observer)
    requires Inv(s) && Enabled(s, step) && !s.destroyed && Actor(step) == t && !step.Destroy?
    requires Progress(s, n, t, c, o) && step != DropTask(Task(t, c, n))
    requires step.Continue? ==> !AboutToRemove(s, t, o)
    ensures Progress(Apply(s, step), n, t, c, o)
  {
    assert InvFor(s, t);
    match step {
      case Notify(_) => ProgressUndisturbed(s, Apply(s, step), n, t, c, o);
      case DropTask(task) => ProgressUndisturbed(s, Apply(s, step), n, t, c, o);
      case Continue(_) =>
        if Serves(Top(Stack(s, t)).value, n) {
          ProgressOwn(s, n, t, c, o);
        } else {
          ProgressOther(s, n, t, c, o);
        }
      case RunTask(task) => ProgressRunsTask(s, task, n, t, c, o);
      case StartAdd(_, x, hasLoop, newId) => ProgressAdds(s, n, t, c, o, x, hasLoop, newId);
      case StartRemove(_, x) => ProgressRemoves(s, n, t, c, o, x);
    }
  }

  /** A step of another thread. */
  lemma {:induction false} ProgressBystander(s: State, step: Step, n: nat, t: Thread, c: ContextId, o: Observer)
    requires Inv(s) && Enabled(s, step) && !s.destroyed && Actor(step) != t && !step.Destroy?
    requires Progress(s, n, t, c, o)
    ensures Progress(Apply(s, step), n, t, c, o)
  {
    hide Apply, Enabled, Inv, InvFor;
    var s' := Apply(s, step);
    ActorOk(s, step);
    CallsOfActor(s, step);
    TasksOfActor(s, step, n, t);
    OtherCallsDoNotCount(s.calls, s'.calls[|s.calls|..], Call(n, t, o));
    assert s'.calls == s.calls + s'.calls[|s.calls|..];
    ProgressUndisturbed(s, s', n, t, c, o);
  }

  lemma {:induction false} CallsOfActor(s: State, step: Step)
    requires Enabled(s, step)
    ensures var s' := Apply(s, step);
            && |s.calls| <= |s'.calls| && s'.calls[..|s.calls|] == s.calls
            && forall call :: call in s'.calls[|s.calls|..] ==> call.thread == Actor(step)
  {
    hide NextOf, EndOf, BeginOf, Add, Remove, PlainAdd, PlainRemove;
    CallsAfter(s, step);
  }

  lemma {:induction false} TasksOfActor(s: State, step: Step, n: nat, t: Thread)
    requires Enabled(s, step) && n < s.notifies && Actor(step) != t
    ensures var s' := Apply(s, step);
            && s'.notifies >= s.notifies
            && forall task: Task :: task.notify == n && task.target == t ==> (task in s'.tasks <==> task in s.tasks)
  {
    hide EffectOf;
  }

  /** Stretches of a run in which `o` stays registered and the posted task is not dropped. */
  ghost predicate StaysRegistered(states: seq<State>, steps: seq<Step>, from: nat, to: nat,
                                  n: nat, t: Thread, c: ContextId, o: Observer)
    requires from <= to < |states| && |states| == |steps| + 1
  {
    && (forall k :: from <= k <= to ==> o in Registered(states[k], t) && !states[k].destroyed)
    && (forall k :: from <= k < to ==> steps[k] != DropTask(Task(t, c, n)))
  }

  lemma {:induction false} ProgressStep(s: State, step: Step, n: nat, t: Thread, c: ContextId, o: Observer)
    requires Inv(s) && Enabled(s, step) && !s.destroyed && !Apply(s, step).destroyed
    requires o in Registered(Apply(s, step), t) && step != DropTask(Task(t, c, n))
    requires Progress(s, n, t, c, o)
    ensures Progress(Apply(s, step), n, t, c, o)
  {
    hide Inv, Enabled, Progress, Registered;
    if Actor(step) == t && !step.Destroy? {
      StepRegisters(s, step, t, o);
      ProgressActor(s, step, n, t, c, o);
    } else if !step.Destroy? {
      ProgressBystander(s, step, n, t, c, o);
    }
  }

  ghost predicate TasksNumbered(s: State) {
    forall task :: task in s.tasks ==> task.notify < s.notifies
  }

  ghost predicate StackNumbered(st: seq<Frame>, notifies: nat) {
    forall i, n: nat :: 0 <= i < |st| && Serves(st[i], n) ==> n < notifies
  }

  /** Only past Notify calls have tasks, frames or callbacks. */
  ghost predicate NumbersOk(s: State) {
    && TasksNumbered(s)
    && (forall t :: StackNumbered(Stack(s, t), s.notifies))
    && (forall call :: call in s.calls ==> call.notify < s.notifies)
  }

  lemma {:induction false} StackAfter(s: State, step: Step, t: Thread)
    requires Enabled(s, step) && TasksNumbered(s) && StackNumbered(Stack(s, t), s.notifies)
    ensures StackNumbered(Stack(Apply(s, step), t), s.notifies)
  {
    hide Apply, ApplyContinue, CanEnter, StackNumbered;
    if step == Continue(t) {
      ContinueIsApplied(s, t);
      StackAfterContinue(s, t);
    } else if step.StartAdd? || step.StartRemove? || step.RunTask? {
      StackAfterEntering(s, step, t);
    } else {
      StackUntouched(s, step, t);
    }
  }

  lemma {:induction false} NumberedPush(st: seq<Frame>, f: Frame, notifies: nat)
    requires StackNumbered(st, notifies) && forall n: nat :: Serves(f, n) ==> n < notifies
    ensures StackNumbered(st + [f], notifies)
  {
    hide Serves;
  }

  lemma {:induction false} StackAfterEntering(s: State, step: Step, t: Thread)
    requires step.StartAdd? || step.StartRemove? || (step.RunTask? && step.task.notify < s.notifies)
    requires StackNumbered(Stack(s, t), s.notifies)
    ensures StackNumbered(Stack(Apply(s, step), t), s.notifies)
  {
    hide ApplyContinue, ApplyNotify, ApplyDestroy, IsLive, ListOf, StackNumbered;
    var st := Stack(s, t);
    match step {
      case StartAdd(_, o, _, newId) =>
        NumberedPush(st, Adding(if t in s.lists then s.lists[t] else newId, o), s.notifies);
      case StartRemove(_, o) =>
        if t in s.lists {
          NumberedPush(st, Removing(s.lists[t], o), s.notifies);
        }
      case RunTask(task) => NumberedPush(st, Checked(task.context, task.notify), s.notifies);
    }
  }

  /** These steps leave a thread's stack alone. */
  lemma {:induction false} StackUntouched(s: State, step: Step, t: Thread)
    requires step.Notify? || step.DropTask? || step.Destroy? || (step.Continue? && step.thread != t)
    ensures Stack(Apply(s, step), t) == Stack(s, t)
  {
    hide NextEffect, IsLive, OwnerOf, ListOf;
  }

  lemma {:induction false} ContinueIsApplied(s: State, t: Thread)
    requires Stack(s, t) != []
    ensures Apply(s, Continue(t)) == ApplyContinue(s, t)
  {
    hide ApplyContinue;
  }

  lemma {:induction false} StackAfterContinue(s: State, t: Thread)
    requires Stack(s, t) != [] && StackNumbered(Stack(s, t), s.notifies)
    ensures StackNumbered(Stack(ApplyContinue(s, t), t), s.notifies)
  {
    hide EffectOf, Serves;
    var st, st' := Stack(s, t), Stack(ApplyContinue(s, t), t);
    forall i, n: nat | 0 <= i < |st'| && Serves(st'[i], n) ensures n < s.notifies {
      ContinueFrames(s, t, n);
      if i < |st| - 1 {
        assert st'[i] == st[i];
      } else {
        assert st'[i] == NextEffect(s, t).next[0];
        assert Serves(st[|st| - 1], n);
      }
    }
  }

  lemma {:induction false} NumberedTasks(s: State, step: Step)
    requires TasksNumbered(s)
    ensures TasksNumbered(Apply(s, step)) && s.notifies <= Apply(s, step).notifies
  {
    hide NextEffect, IsLive, OwnerOf, ListOf;
  }

  lemma {:induction false} NumberedCalls(s: State, step: Step)
    requires Enabled(s, step) && NumbersOk(s)
    ensures forall call :: call in Apply(s, step).calls ==> call.notify < s.notifies
  {
    hide EffectOf, NextEffect, Serves, IsLive, OwnerOf, ListOf, TasksNumbered;
    if step.Continue? {
      var t := step.thread;
      forall call | call in NextEffect(s, t).calls ensures call.notify < s.notifies {
        ContinueFrames(s, t, call.notify);
        assert Serves(Stack(s, t)[|Stack(s, t)| - 1], call.notify);
      }
    }
  }

  lemma {:induction false} NumbersKept(s: State, step: Step)
    requires Enabled(s, step) && NumbersOk(s)
    ensures NumbersOk(Apply(s, step))
  {
    hide Apply, Serves, Enabled, Stack, TasksNumbered;
    NumberedTasks(s, step);
    NumberedCalls(s, step);
    forall t ensures StackNumbered(Stack(Apply(s, step), t), Apply(s, step).notifies) {
      StackAfter(s, step, t);
    }
  }

  lemma {:induction false} RunNumbers(kind: NotificationType, states: seq<State>, steps: seq<Step>, k: nat)
    requires IsRun(kind, states, steps) && k <= |steps|
    ensures NumbersOk(states[k])
  {
    if k > 0 {
      RunNumbers(kind, states, steps, k - 1);
      RunInvariant(kind, states, steps, k - 1);
      NumbersKept(states[k - 1], steps[k - 1]);
    }
  }

  /** A Notify posts one task for each thread in the map, for the context found there. */
  lemma {:induction false} ProgressPosted(s: State, step: Step, t: Thread, o: Observer)
    requires step.Notify? && Inv(s) && !s.destroyed && t in s.lists && o in Registered(s, t) && NumbersOk(s)
    ensures Progress(Apply(s, step), s.notifies, t, s.lists[t], o)
  {
    var c, n, s' := s.lists[t], s.notifies, ApplyNotify(s);
    assert InvFor(s, t);
    LiveMembers(s.contexts[c].list.slots, o);
    assert Held(s, t, c, o);
    assert Task(t, c, n) in s'.tasks by {
      assert OwnerOf(s, s.lists[t]) == t;
    }
    forall task | task in s'.tasks && task.notify == n && task.target == t ensures task == Task(t, c, n) {
      var u :| u in s.lists && task == Task(OwnerOf(s, s.lists[u]), s.lists[u], n);
      assert InvFor(s, u);
    }
    assert Count(s'.calls, Call(n, t, o)) == 0 by {
      assert Call(n, t, o) !in s.calls;
    }
  }

  lemma {:induction false} ProgressThroughout(kind: NotificationType, states: seq<State>, steps: seq<Step>,
                                               from: nat, to: nat, t: Thread, o: Observer)
    requires IsRun(kind, states, steps) && from < to <= |steps| && steps[from].Notify? && t in states[from].lists
    requires StaysRegistered(states, steps, from, to, states[from].notifies, t, states[from].lists[t], o)
    ensures Progress(states[to], states[from].notifies, t, states[from].lists[t], o)
  {
    hide Inv, Progress, Enabled, Apply, Registered;
    RunInvariant(kind, states, steps, to - 1);
    if to == from + 1 {
      RunNumbers(kind, states, steps, from);
      ProgressPosted(states[from], steps[from], t, o);
    } else {
      ProgressThroughout(kind, states, steps, from, to - 1, t, o);
      var k := to - 1;
      assert Enabled(states[k], steps[k]) && states[k + 1] == Apply(states[k], steps[k]);
      assert steps[k] != DropTask(Task(t, states[from].lists[t], states[from].notifies));
      ProgressStep(states[to - 1], steps[to - 1], states[from].notifies, t, states[from].lists[t], o);
    }
  }

  /**
   In every run, an observer that stays registered on a thread from a Notify until that
   thread is through with the task posted for it has by then been called exactly once for
   that Notify.
   */
  lemma {:induction false} CalledExactlyOnce(kind: NotificationType, states: seq<State>, steps: seq<Step>,
                                              from: nat, to: nat, t: Thread, o: Observer)
    requires IsRun(kind, states, steps) && from < to <= |steps| && steps[from].Notify? && t in states[from].lists
    requires StaysRegistered(states, steps, from, to, states[from].notifies, t, states[from].lists[t], o)
    requires Task(t, states[from].lists[t], states[from].notifies) !in states[to].tasks
    requires Idle(Stack(states[to], t), states[from].notifies)
    ensures Count(states[to].calls, Call(states[from].notifies, t, o)) == 1
  {
    ProgressThroughout(kind, states, steps, from, to, t, o);
  }

  /** A thread with no unfinished call is in the map exactly if it has registered an observer. */
  lemma {:induction false} IdleIsMapped(kind: NotificationType, states: seq<State>, steps: seq<Step>, k: nat, t: Thread)
    requires IsRun(kind, states, steps) && k <= |steps| && !states[k].destroyed && Stack(states[k], t) == []
    ensures t in states[k].lists <==> Registered(states[k], t) != []
  {
    RunInvariant(kind, states, steps, k);
    var s := states[k];
    assert InvFor(s, t);
    if t in s.lists {
      var l := s.contexts[s.lists[t]].list;
      assert ContextOk(s.kind, l, s.lists[t], Entry(s, t), []);
      LivePacked(l.slots);
    }
  }

  /** While it is not being removed, a registered observer's thread is in the map. */
  lemma {:induction false} RegisteredIsMapped(kind: NotificationType, states: seq<State>, steps: seq<Step>, k: nat,
                                               t: Thread, o: Observer)
    requires IsRun(kind, states, steps) && k <= |steps| && !states[k].destroyed
    requires o in Registered(states[k], t) && !AboutToRemove(states[k], t, o)
    ensures t in states[k].lists
  {
    RunInvariant(kind, states, steps, k);
    assert InvFor(states[k], t);
    var s := states[k];
    if t !in s.lists && Top(Stack(s, t)).Some? && Top(Stack(s, t)).value.Removing? {
      var f := Top(Stack(s, t)).value;
      LiveMembers(s.contexts[f.context].list.slots, o);
    }
  }
}
