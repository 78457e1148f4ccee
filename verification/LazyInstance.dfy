/**
 LazyInstance: any number of threads share one word, which is 0, then 1 while one of them builds the
 instance, then the instance's address.  Each move below is one access to the shared word, or the
 start or end of the constructor; the threads interleave in any order.
 */
module LazyInstances {
  type Thread = nat
  type Word = bv64

  const CREATING: Word := 1

  /** The fast-path test: some bit other than that of the creating marker is set. */
  predicate Created(value: Word) {
    value & !CREATING != 0
  }

  lemma CreatedIs(value: Word)
    ensures Created(value) <==> value != 0 && value != CREATING
  {
  }

  /** Where a thread is in `Pointer`. */
  datatype Pc =
    | Idle
    | FastLoad
    | Swap
    | Spin
    | New
    | Constructing
    | Publish(made: Word)
    | Register
    | Load

  datatype World = World(
    registerOnExit: bool,
    word: Word,
    pcs: map<Thread, Pc>,
    started: nat,
    built: seq<Word>,
    registered: nat,
    returned: seq<Word>)
  {
    function PcOf(t: Thread): Pc {
      if t in pcs then pcs[t] else Idle
    }

    function Goto(t: Thread, pc: Pc): World {
      this.(pcs := pcs[t := pc])
    }
  }

  /** Thread `t` takes its next step; `made` is the address `Traits::New` returns. */
  datatype Move = Move(thread: Thread, made: Word)

  /** The one thing asked of the outside: the address of an object is neither 0 nor 1. */
  predicate Enabled(w: World, m: Move) {
    w.PcOf(m.thread) == Constructing ==> Created(m.made)
  }

  function Step(w: World, m: Move): World {
    var t := m.thread;
    match w.PcOf(t)
    case Idle => w.Goto(t, FastLoad)
    case FastLoad => if Created(w.word) then w.Goto(t, Load) else w.Goto(t, Swap)
    case Swap => if w.word == 0 then w.(word := CREATING).Goto(t, New) else w.Goto(t, Spin)
    case Spin => if w.word == CREATING then w else w.Goto(t, Load)
    case New => w.(started := w.started + 1).Goto(t, Constructing)
    case Constructing => w.(built := w.built + [m.made]).Goto(t, Publish(m.made))
    case Publish(made) => w.(word := made).Goto(t, if w.registerOnExit then Register else Load)
    case Register => w.(registered := w.registered + 1).Goto(t, Load)
    case Load => w.(returned := w.returned + [w.word]).Goto(t, Idle)
  }

  function Start(registerOnExit: bool): World {
    World(registerOnExit, 0, map[], 0, [], 0, [])
  }

  predicate Legal(w: World, moves: seq<Move>)
    decreases |moves|
  {
    |moves| == 0 || (Enabled(w, moves[0]) && Legal(Step(w, moves[0]), moves[1..]))
  }

  function Run(w: World, moves: seq<Move>): World
    decreases |moves|
  {
    if |moves| == 0 then w else Run(Step(w, moves[0]), moves[1..])
  }

  // ---------- The invariant ----------

  /** Between its compare-and-swap and its publishing store. */
  predicate Creating(pc: Pc) {
    pc.New? || pc.Constructing? || pc.Publish?
  }

  /** Not yet past the compare-and-swap. */
  predicate Outside(pc: Pc) {
    pc.Idle? || pc.FastLoad? || pc.Swap?
  }

  ghost predicate Untouched(w: World) {
    && w.started == 0 && w.built == [] && w.registered == 0 && w.returned == []
    && forall t :: Outside(w.PcOf(t))
  }

  ghost predicate InCreation(w: World, creator: Thread) {
    && w.registered == 0 && w.returned == []
    && (forall t :: t != creator ==> (Outside(w.PcOf(t)) || w.PcOf(t).Spin?))
    && match w.PcOf(creator)
       case New => w.started == 0 && w.built == []
       case Constructing => w.started == 1 && w.built == []
       case Publish(made) => w.started == 1 && w.built == [made] && Created(made)
       case _ => false
  }

  ghost predicate Published(w: World, creator: Thread) {
    && w.started == 1 && w.built == [w.word]
    && (forall t :: !Creating(w.PcOf(t)))
    && (forall t :: t != creator ==> !w.PcOf(t).Register?)
    && (forall i :: 0 <= i < |w.returned| ==> w.returned[i] == w.word)
    && w.registered == (if w.registerOnExit && !w.PcOf(creator).Register? then 1 else 0)
    && (w.PcOf(creator).Register? ==> w.registerOnExit)
  }

  ghost predicate Inv(w: World) {
    if w.word == 0 then Untouched(w)
    else if w.word == CREATING then exists creator :: InCreation(w, creator)
    else exists creator :: Published(w, creator)
  }

  lemma OthersStay(w: World, m: Move)
    ensures forall t :: t != m.thread ==> Step(w, m).PcOf(t) == w.PcOf(t)
  {
    hide Created;
  }

  lemma {:induction false} StepInv(w: World, m: Move)
    requires Inv(w) && Enabled(w, m)
    ensures Inv(Step(w, m))
  {
    hide Created;
    CreatedIs(w.word);
    CreatedIs(m.made);
    if w.word == 0 {
      StepUntouched(w, m);
    } else if w.word == CREATING {
      var creator :| InCreation(w, creator);
      StepInCreation(w, m, creator);
    } else {
      var creator :| Published(w, creator);
      StepPublished(w, m, creator);
    }
  }

  lemma {:induction false} StepUntouched(w: World, m: Move)
    requires w.word == 0 && Untouched(w)
    ensures Inv(Step(w, m))
  {
    hide Created;
    OthersStay(w, m);
    CreatedIs(w.word);
    if w.PcOf(m.thread) == Swap {
      assert InCreation(Step(w, m), m.thread);
    }
  }

  lemma {:induction false} StepInCreation(w: World, m: Move, creator: Thread)
    requires w.word == CREATING && InCreation(w, creator) && Enabled(w, m)
    ensures Inv(Step(w, m))
  {
    hide Created;
    OthersStay(w, m);
    CreatedIs(w.word);
    if m.thread == creator && w.PcOf(creator).Publish? {
      CreatedIs(w.PcOf(creator).made);
      assert Published(Step(w, m), creator);
    } else {
      assert InCreation(Step(w, m), creator);
    }
  }

  lemma {:induction false} StepPublished(w: World, m: Move, creator: Thread)
    requires w.word != 0 && w.word != CREATING && Published(w, creator)
    ensures Published(Step(w, m), creator) && Step(w, m).word == w.word
  {
    hide Created;
    CreatedIs(w.word);
    OthersStay(w, m);
  }

  lemma {:induction false} RunInv(w: World, moves: seq<Move>)
    requires Inv(w) && Legal(w, moves)
    ensures Inv(Run(w, moves))
    decreases |moves|
  {
    hide Inv, Step, Enabled;
    if |moves| > 0 {
      StepInv(w, moves[0]);
      RunInv(Step(w, moves[0]), moves[1..]);
    }
  }

  // ---------- What every run keeps ----------

  /** The word only moves from 0 to creating to an address, which stays. */
  predicate Advances(before: Word, after: Word) {
    before == after || before == 0 || (before == CREATING && after != 0)
  }

  lemma {:induction false} WordAdvances(w: World, moves: seq<Move>)
    requires Inv(w) && Legal(w, moves)
    ensures Advances(w.word, Run(w, moves).word)
    decreases |moves|
  {
    hide Created;
    if |moves| > 0 {
      var next := Step(w, moves[0]);
      StepInv(w, moves[0]);
      WordAdvances(next, moves[1..]);
      if w.word != 0 && w.word != CREATING {
        var creator :| Published(w, creator);
        StepPublished(w, moves[0], creator);
      } else if w.word == CREATING {
        var creator :| InCreation(w, creator);
        if moves[0].thread == creator && w.PcOf(creator).Publish? {
          CreatedIs(w.PcOf(creator).made);
        }
      }
    }
  }

  /** The world after the first `n` moves of a run from the start. */
  function At(registerOnExit: bool, moves: seq<Move>, n: nat): World
    requires n <= |moves|
  {
    Run(Start(registerOnExit), moves[..n])
  }

  lemma {:induction false} RunSplits(w: World, first: seq<Move>, rest: seq<Move>)
    ensures Legal(w, first + rest) <==> Legal(w, first) && Legal(Run(w, first), rest)
    ensures Run(w, first + rest) == Run(Run(w, first), rest)
    decreases |first|
  {
    hide Step, Enabled;
    if |first| == 0 {
      assert first + rest == rest;
    } else {
      assert (first + rest)[0] == first[0] && (first + rest)[1..] == first[1..] + rest;
      RunSplits(Step(w, first[0]), first[1..], rest);
    }
  }

  lemma {:induction false} AtInv(registerOnExit: bool, moves: seq<Move>, n: nat)
    requires n <= |moves| && Legal(Start(registerOnExit), moves)
    ensures Inv(At(registerOnExit, moves, n)) && Legal(At(registerOnExit, moves, n), moves[n..])
    ensures Run(At(registerOnExit, moves, n), moves[n..]) == Run(Start(registerOnExit), moves)
  {
    hide Step, Legal, Run;
    assert moves == moves[..n] + moves[n..];
    RunSplits(Start(registerOnExit), moves[..n], moves[n..]);
    RunInv(Start(registerOnExit), moves[..n]);
  }

  /** In every run the word only moves from 0 to creating to an address. */
  lemma {:induction false} WordOnlyAdvances(registerOnExit: bool, moves: seq<Move>, i: nat, j: nat)
    requires i <= j <= |moves| && Legal(Start(registerOnExit), moves)
    ensures Advances(At(registerOnExit, moves, i).word, At(registerOnExit, moves, j).word)
  {
    hide Step, Legal, Run, Inv, Advances;
    AtInv(registerOnExit, moves, i);
    assert moves[i..] == moves[i..j] + moves[j..] && moves[..j] == moves[..i] + moves[i..j];
    RunSplits(At(registerOnExit, moves, i), moves[i..j], moves[j..]);
    assert moves == moves[..j] + moves[j..];
    RunSplits(Start(registerOnExit), moves[..j], moves[j..]);
    RunSplits(Start(registerOnExit), moves[..i], moves[i..j]);
    WordAdvances(At(registerOnExit, moves, i), moves[i..j]);
  }

  /**
   In every run the constructor starts at most once, and once any call has returned it has started and
   finished exactly once; every call returns the address it made, and the destructor is registered at
   most once and only if asked for, and by the time all calls have returned it is.
   */
  lemma {:induction false} CreatedOnce(registerOnExit: bool, moves: seq<Move>, n: nat)
    requires n <= |moves| && Legal(Start(registerOnExit), moves)
    ensures var w := At(registerOnExit, moves, n);
            && w.started <= 1 && |w.built| <= w.started
            && w.registered <= (if registerOnExit then 1 else 0)
            && (|w.returned| > 0 || w.registered > 0 ==> w.started == 1 && w.built == [w.word])
            && (forall i :: 0 <= i < |w.returned| ==> w.returned[i] == w.built[0])
            && (|w.returned| > 0 && (forall t :: w.PcOf(t).Idle?) ==> w.registered == if registerOnExit then 1 else 0)
  {
    hide Step, Legal, Run, Created;
    AtInv(registerOnExit, moves, n);
    SameExit(Start(registerOnExit), moves[..n]);
  }

  lemma {:induction false} SameExit(w: World, moves: seq<Move>)
    ensures Run(w, moves).registerOnExit == w.registerOnExit
    decreases |moves|
  {
    hide Created;
    if |moves| > 0 {
      SameExit(Step(w, moves[0]), moves[1..]);
    }
  }

  /** A step is one more turn of the spin loop. */
  predicate Spins(w: World, m: Move) {
    w.PcOf(m.thread).Spin? && Step(w, m).PcOf(m.thread).Spin?
  }

  /** In every run a thread spins only while exactly one other is between its compare-and-swap and its publish. */
  lemma {:induction false} SpinsForAnother(registerOnExit: bool, moves: seq<Move>, n: nat)
    requires n < |moves| && Legal(Start(registerOnExit), moves)
    requires Spins(At(registerOnExit, moves, n), moves[n])
    ensures exists creator :: creator != moves[n].thread
              && Creating(At(registerOnExit, moves, n).PcOf(creator))
              && forall t :: Creating(At(registerOnExit, moves, n).PcOf(t)) ==> t == creator
  {
    hide Legal, Run, Created;
    AtInv(registerOnExit, moves, n);
    var w := At(registerOnExit, moves, n);
    var creator :| InCreation(w, creator);
    assert Creating(w.PcOf(creator));
  }

  // ---------- No thread is stuck ----------

  /** The steps `t` needs to return when no other thread is in its way. */
  function Left(pc: Pc): nat {
    match pc
    case Idle => 0
    case Load => 1
    case Register => 2
    case Spin => 2
    case Publish(_) => 3
    case Constructing => 4
    case New => 5
    case Swap => 6
    case FastLoad => 7
  }

  /** One thread stepping `n` times. */
  function Solo(t: Thread, made: Word, n: nat): seq<Move> {
    seq(n, _ => Move(t, made))
  }

  /** A thread that is not kept spinning gets out of its call by its own steps. */
  lemma {:induction false} SoloFinishes(w: World, t: Thread, made: Word) returns (n: nat)
    requires Inv(w) && Created(made)
    requires w.word == CREATING ==> Creating(w.PcOf(t)) || w.PcOf(t).Idle?
    ensures n <= Left(w.PcOf(t)) && Legal(w, Solo(t, made, n))
    ensures Run(w, Solo(t, made, n)).PcOf(t).Idle?
    ensures !w.PcOf(t).Idle? ==>
              var end := Run(w, Solo(t, made, n));
              && |end.returned| == |w.returned| + 1 && end.returned[|w.returned|] == end.word
              && end.word != 0 && end.word != CREATING
    decreases Left(w.PcOf(t))
  {
    hide Inv, Created;
    if w.PcOf(t).Idle? {
      n := 0;
    } else {
      var m := Move(t, made);
      StepInv(w, m);
      SoloStep(w, t, made);
      var rest := SoloFinishes(Step(w, m), t, made);
      n := rest + 1;
      assert Solo(t, made, n)[1..] == Solo(t, made, rest);
    }
  }

  lemma {:induction false} SoloStep(w: World, t: Thread, made: Word)
    requires Inv(w) && Created(made) && !w.PcOf(t).Idle?
    requires w.word == CREATING ==> Creating(w.PcOf(t))
    ensures var next := Step(w, Move(t, made));
            && Left(next.PcOf(t)) < Left(w.PcOf(t))
            && (next.word == CREATING ==> Creating(next.PcOf(t)))
            && (!next.PcOf(t).Idle? ==> next.returned == w.returned)
            && (next.PcOf(t).Idle? ==> next.returned == w.returned + [w.word] && next.word == w.word
                                       && w.word != 0 && w.word != CREATING)
  {
    hide Created;
    CreatedIs(w.word);
    CreatedIs(made);
  }

  lemma {:induction false} SoloOthers(w: World, t: Thread, made: Word, n: nat, u: Thread)
    requires u != t
    ensures Run(w, Solo(t, made, n)).PcOf(u) == w.PcOf(u)
    decreases n
  {
    hide Created;
    if n > 0 {
      OthersStay(w, Move(t, made));
      assert Solo(t, made, n)[1..] == Solo(t, made, n - 1);
      SoloOthers(Step(w, Move(t, made)), t, made, n - 1, u);
    }
  }

  /**
   No thread is ever stuck: whatever happened so far, at most 12 more moves bring a call of `t` to its
   return, with the address of the instance.
   */
  lemma {:induction false} NeverStuck(registerOnExit: bool, moves: seq<Move>, t: Thread, made: Word)
    returns (more: seq<Move>)
    requires Legal(Start(registerOnExit), moves) && Created(made)
    ensures |more| <= 12 && Legal(Start(registerOnExit), moves + more)
    ensures var end := At(registerOnExit, moves + more, |moves + more|);
            end.PcOf(t).Idle? && (!At(registerOnExit, moves, |moves|).PcOf(t).Idle? ==> end.word in end.returned)
  {
    hide Step, Legal, Run, Inv, Created;
    var w := At(registerOnExit, moves, |moves|);
    AtInv(registerOnExit, moves, |moves|);
    assert moves[..|moves|] == moves;
    var first: seq<Move> := [];
    if w.word == CREATING && !Creating(w.PcOf(t)) && !w.PcOf(t).Idle? {
      var creator := FindCreator(w);
      var k := SoloFinishes(w, creator, made);
      first := Solo(creator, made, k);
      SoloOthers(w, creator, made, k, t);
      RunInv(w, first);
    }
    RunNothing(w);
    var middle := Run(w, first);
    var n := SoloFinishes(middle, t, made);
    more := first + Solo(t, made, n);
    RunSplits(w, first, Solo(t, made, n));
    RunSplits(Start(registerOnExit), moves, more);
    assert (moves + more)[..|moves + more|] == moves + more;
  }

  lemma RunNothing(w: World)
    ensures Run(w, []) == w && Legal(w, [])
  {
  }

  lemma FindCreator(w: World) returns (creator: Thread)
    requires Inv(w) && w.word == CREATING
    ensures Creating(w.PcOf(creator))
  {
    creator :| InCreation(w, creator);
  }
}
