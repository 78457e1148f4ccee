/**
 PathService: paths by key, from overrides or else from a chain of providers that may themselves ask
 for other keys, behind a cache that must never be noticed.
 */
module PathServices {
  import opened Options

  type Key = int
  type Path = string

  const DIR_CURRENT: Key := 1

  /** What a provider does next, knowing the answers to what it asked so far. */
  datatype Action = Answer(path: Path) | Decline | Ask(key: Key)

  /** A provider claims the keys from `start` up to `end`. */
  datatype Provider = Provider(func: (Key, seq<Option<Path>>) -> Action, start: Key, end: Key)

  /** The file system, and a bound on how deep and how long providers ask. */
  datatype Env = Env(
    referencesParent: Path -> bool,
    absolute: Path -> Path,
    rank: Key -> nat,
    limit: nat)

  datatype State = State(overrides: map<Key, Path>, providers: seq<Provider>)

  predicate Claims(p: Provider, key: Key) {
    p.start <= key < p.end
  }

  /** Declines foreign keys at once, and asks finitely often, only for keys of lower rank. */
  ghost predicate WellBehaved(e: Env, p: Provider) {
    forall key: Key, answers: seq<Option<Path>> ::
      match p.func(key, answers)
      case Answer(_) => Claims(p, key)
      case Decline => true
      case Ask(asked) => Claims(p, key) && |answers| < e.limit && DIR_CURRENT < asked && e.rank(asked) < e.rank(key)
  }

  ghost predicate AllWellBehaved(e: Env, st: State) {
    forall i :: 0 <= i < |st.providers| ==> WellBehaved(e, st.providers[i])
  }

  ghost predicate Disjoint(st: State) {
    forall i, j, key :: 0 <= i < j < |st.providers| && Claims(st.providers[i], key) ==> !Claims(st.providers[j], key)
  }

  // ---------- Evaluation without a cache ----------

  /** A path never leaves with ".." in it, and an empty one is no path. */
  function Finish(e: Env, path: Path): Option<Path> {
    if path == "" then None
    else if !e.referencesParent(path) then Some(path)
    else if e.absolute(path) == "" then None
    else Some(e.absolute(path))
  }

  /** Override first, else the first provider that answers. */
  ghost function Eval(e: Env, st: State, key: Key): Option<Path>
    requires AllWellBehaved(e, st)
    decreases e.rank(key), 2, 0
  {
    if key in st.overrides then Some(st.overrides[key]) else Finish(e, FirstAnswer(e, st, key, 0))
  }

  /** The answer of the first of the providers from `i` on that answers, or an empty path. */
  ghost function FirstAnswer(e: Env, st: State, key: Key, i: nat): Path
    requires AllWellBehaved(e, st) && i <= |st.providers|
    decreases e.rank(key), 1, |st.providers| - i
  {
    if i == |st.providers| then ""
    else
      match Converse(e, st, key, i, [])
      case Some(path) => path
      case None => FirstAnswer(e, st, key, i + 1)
  }

  /** The outcome of provider `i`, having received `answers`. */
  ghost function Converse(e: Env, st: State, key: Key, i: nat, answers: seq<Option<Path>>): Option<Path>
    requires AllWellBehaved(e, st) && i < |st.providers|
    decreases e.rank(key), 0, e.limit - |answers|
  {
    assert WellBehaved(e, st.providers[i]);
    match st.providers[i].func(key, answers)
    case Answer(path) => Some(path)
    case Decline => None
    case Ask(asked) => Converse(e, st, key, i, answers + [Eval(e, st, asked)])
  }

  // ---------- What an answer is ----------

  /** The path a provider gave, made absolute if it has a ".." in it; an empty one is no answer. */
  ghost predicate Resolves(e: Env, path: Path, r: Option<Path>) {
    var served := if e.referencesParent(path) then e.absolute(path) else path;
    if path == "" || served == "" then r == None else r == Some(served)
  }

  /** Asked for `key`, provider `i` asks for other keys, gets these replies and then comes to `last`. */
  ghost predicate Exchange(e: Env, st: State, key: Key, i: nat, answers: seq<Option<Path>>, last: Action)
    requires AllWellBehaved(e, st) && i < |st.providers|
    decreases e.rank(key), 0
  {
    assert WellBehaved(e, st.providers[i]);
    && st.providers[i].func(key, answers) == last && !last.Ask?
    && forall n :: 0 <= n < |answers| ==>
         match st.providers[i].func(key, answers[..n])
         case Ask(asked) => IsReply(e, st, asked, answers[n])
         case _ => false
  }

  ghost predicate Answers(e: Env, st: State, key: Key, i: nat, path: Path)
    requires AllWellBehaved(e, st) && i < |st.providers|
    decreases e.rank(key), 1
  {
    exists answers :: Exchange(e, st, key, i, answers, Answer(path))
  }

  ghost predicate Passes(e: Env, st: State, key: Key, i: nat)
    requires AllWellBehaved(e, st) && i < |st.providers|
    decreases e.rank(key), 1
  {
    exists answers :: Exchange(e, st, key, i, answers, Decline)
  }

  /** The override if there is one, or what the first provider that answers gave. */
  ghost predicate IsReply(e: Env, st: State, key: Key, r: Option<Path>)
    requires AllWellBehaved(e, st)
    decreases e.rank(key), 2
  {
    if key in st.overrides then r == Some(st.overrides[key])
    else
      || (r == None && forall i :: 0 <= i < |st.providers| ==> Passes(e, st, key, i))
      || exists i, path :: && 0 <= i < |st.providers| && Answers(e, st, key, i, path) && Resolves(e, path, r)
                           && forall j :: 0 <= j < i ==> Passes(e, st, key, j)
  }

  /** The replies to an exchange are determined, and so is its end. */
  lemma {:induction false} ExchangeIsConverse(e: Env, st: State, key: Key, i: nat, answers: seq<Option<Path>>,
                                              last: Action, n: nat)
    requires AllWellBehaved(e, st) && i < |st.providers| && Exchange(e, st, key, i, answers, last) && n <= |answers|
    ensures Converse(e, st, key, i, answers[..n]) == if last.Answer? then Some(last.path) else None
    decreases e.rank(key), 0, |answers| - n
  {
    hide IsReply;
    assert WellBehaved(e, st.providers[i]);
    if n < |answers| {
      ExchangeIsConverse(e, st, key, i, answers, last, n + 1);
      ReplyIsEval(e, st, st.providers[i].func(key, answers[..n]).key, answers[n]);
      assert answers[..n + 1] == answers[..n] + [answers[n]];
    } else {
      assert answers[..n] == answers;
    }
  }

  /** Every conversation is an exchange. */
  lemma {:induction false} ConverseExchanges(e: Env, st: State, key: Key, i: nat, answers: seq<Option<Path>>)
    returns (all: seq<Option<Path>>, last: Action)
    requires AllWellBehaved(e, st) && i < |st.providers|
    requires forall n :: 0 <= n < |answers| ==>
               match st.providers[i].func(key, answers[..n])
               case Ask(asked) => e.rank(asked) < e.rank(key) && IsReply(e, st, asked, answers[n])
               case _ => false
    ensures Exchange(e, st, key, i, all, last)
    decreases e.rank(key), 0, e.limit - |answers|
  {
    hide IsReply;
    assert WellBehaved(e, st.providers[i]);
    match st.providers[i].func(key, answers)
    case Ask(asked) =>
      ReplyIsEval(e, st, asked, Eval(e, st, asked));
      var more := answers + [Eval(e, st, asked)];
      forall n | 0 <= n < |more|
        ensures match st.providers[i].func(key, more[..n])
                case Ask(asked) => e.rank(asked) < e.rank(key) && IsReply(e, st, asked, more[n])
                case _ => false
      {
        assert more[..n] == answers[..n];
        assert answers[..|answers|] == answers;
      }
      all, last := ConverseExchanges(e, st, key, i, more);
    case _ =>
      all, last := answers, st.providers[i].func(key, answers);
  }

  lemma {:induction false} ProviderOutcome(e: Env, st: State, key: Key, i: nat)
    requires AllWellBehaved(e, st) && i < |st.providers|
    ensures Passes(e, st, key, i) <==> Converse(e, st, key, i, []) == None
    ensures forall path :: Answers(e, st, key, i, path) <==> Converse(e, st, key, i, []) == Some(path)
    decreases e.rank(key), 1
  {
    hide Exchange, Converse;
    var all, last := ConverseExchanges(e, st, key, i, []);
    ExchangeEnds(e, st, key, i, all, last);
    forall answers, end | Exchange(e, st, key, i, answers, end)
      ensures Converse(e, st, key, i, []) == (if end.Answer? then Some(end.path) else None) && !end.Ask?
    {
      ExchangeEnds(e, st, key, i, answers, end);
    }
  }

  lemma {:induction false} ExchangeEnds(e: Env, st: State, key: Key, i: nat, answers: seq<Option<Path>>, last: Action)
    requires AllWellBehaved(e, st) && i < |st.providers| && Exchange(e, st, key, i, answers, last)
    ensures Converse(e, st, key, i, []) == (if last.Answer? then Some(last.path) else None) && !last.Ask?
    decreases e.rank(key), 0, |answers| + 1
  {
    hide Converse, IsReply;
    ExchangeIsConverse(e, st, key, i, answers, last, 0);
    assert answers[..0] == [];
  }

  /** Evaluation gives the one reply there is. */
  lemma {:induction false} ReplyIsEval(e: Env, st: State, key: Key, r: Option<Path>)
    requires AllWellBehaved(e, st)
    ensures IsReply(e, st, key, r) <==> r == Eval(e, st, key)
    decreases e.rank(key), 2
  {
    hide Converse, Answers, Passes, WellBehaved;
    forall i | 0 <= i < |st.providers|
      ensures Passes(e, st, key, i) <==> Converse(e, st, key, i, []) == None
      ensures forall path :: Answers(e, st, key, i, path) <==> Converse(e, st, key, i, []) == Some(path)
    {
      ProviderOutcome(e, st, key, i);
    }
    var first := FirstToAnswer(e, st, key, 0);
    var path := FirstAnswer(e, st, key, 0);
    assert Resolves(e, path, Finish(e, path));
    if key !in st.overrides {
      if first < |st.providers| {
        assert Answers(e, st, key, first, path) && !Passes(e, st, key, first);
        forall i, other | 0 <= i < |st.providers| && Answers(e, st, key, i, other)
                          && forall j :: 0 <= j < i ==> Passes(e, st, key, j)
          ensures other == path
        {
          assert !Passes(e, st, key, i);
          assert i == first;
        }
      } else {
        assert forall i :: 0 <= i < |st.providers| ==> Passes(e, st, key, i);
        forall i, other | 0 <= i < |st.providers|
          ensures !Answers(e, st, key, i, other)
        {
          assert Passes(e, st, key, i);
        }
      }
    }
  }

  /** The first provider from `i` on that answers. */
  lemma {:induction false} FirstToAnswer(e: Env, st: State, key: Key, i: nat) returns (first: nat)
    requires AllWellBehaved(e, st) && i <= |st.providers|
    ensures i <= first <= |st.providers| && forall j :: i <= j < first ==> Converse(e, st, key, j, []) == None
    ensures first == |st.providers| ==> FirstAnswer(e, st, key, i) == ""
    ensures first < |st.providers| ==> Converse(e, st, key, first, []) == Some(FirstAnswer(e, st, key, i))
    decreases |st.providers| - i
  {
    hide Converse, WellBehaved;
    first := i;
    if i < |st.providers| && Converse(e, st, key, i, []) == None {
      first := FirstToAnswer(e, st, key, i + 1);
    }
  }

  /** No path made absolute has a ".." in it. */
  ghost predicate AbsoluteIsClean(e: Env) {
    forall path :: e.absolute(path) == "" || !e.referencesParent(e.absolute(path))
  }

  /** Then no path that is not an override leaves with a ".." in it. */
  lemma {:induction false} NoParentLeaves(e: Env, st: State, key: Key, r: Option<Path>)
    requires AllWellBehaved(e, st) && IsReply(e, st, key, r)
    ensures AbsoluteIsClean(e) && key !in st.overrides && r.Some? ==> r.value != "" && !e.referencesParent(r.value)
  {
    hide WellBehaved, Answers, Passes;
  }

  lemma EvalIsClean(e: Env, st: State, key: Key)
    requires AllWellBehaved(e, st)
    ensures IsReply(e, st, key, Eval(e, st, key))
    ensures AbsoluteIsClean(e) && key !in st.overrides && Eval(e, st, key).Some? ==>
              Eval(e, st, key).value != "" && !e.referencesParent(Eval(e, st, key).value)
  {
    hide WellBehaved, IsReply, AbsoluteIsClean;
    ReplyIsEval(e, st, key, Eval(e, st, key));
    NoParentLeaves(e, st, key, Eval(e, st, key));
  }

  // ---------- A new provider ----------

  function Registered(st: State, p: Provider): State {
    st.(providers := [p] + st.providers)
  }

  ghost predicate CanRegister(e: Env, st: State, p: Provider) {
    AllWellBehaved(e, st) && WellBehaved(e, p) && Disjoint(Registered(st, p))
  }

  lemma RegisteredBehaves(e: Env, st: State, p: Provider)
    requires AllWellBehaved(e, st) && WellBehaved(e, p)
    ensures AllWellBehaved(e, Registered(st, p))
  {
    hide WellBehaved;
  }

  /** The new provider gives no path for the key. */
  ghost predicate Silent(e: Env, st: State, p: Provider, key: Key)
    requires AllWellBehaved(e, st) && WellBehaved(e, p)
  {
    RegisteredBehaves(e, st, p);
    var answer := Converse(e, Registered(st, p), key, 0, []);
    answer.None? || Finish(e, answer.value).None?
  }

  /** The new provider gives no path for the key, nor for any key its evaluation asks, unless overridden. */
  ghost predicate Quiet(e: Env, st: State, p: Provider, key: Key)
    requires AllWellBehaved(e, st) && WellBehaved(e, p)
    decreases e.rank(key), 2, 0
  {
    key in st.overrides || (Silent(e, st, p, key) && FirstQuiet(e, st, p, key, 0))
  }

  ghost predicate FirstQuiet(e: Env, st: State, p: Provider, key: Key, i: nat)
    requires AllWellBehaved(e, st) && WellBehaved(e, p) && i <= |st.providers|
    decreases e.rank(key), 1, |st.providers| - i
  {
    i == |st.providers|
    || (ConverseQuiet(e, st, p, key, i, [])
        && (Converse(e, st, key, i, []).None? ==> FirstQuiet(e, st, p, key, i + 1)))
  }

  ghost predicate ConverseQuiet(e: Env, st: State, p: Provider, key: Key, i: nat, answers: seq<Option<Path>>)
    requires AllWellBehaved(e, st) && WellBehaved(e, p) && i < |st.providers|
    decreases e.rank(key), 0, e.limit - |answers|
  {
    assert WellBehaved(e, st.providers[i]);
    match st.providers[i].func(key, answers)
    case Ask(asked) => Quiet(e, st, p, asked) && ConverseQuiet(e, st, p, key, i, answers + [Eval(e, st, asked)])
    case _ => true
  }

  /** Registering changes neither the answer for the key nor that for any key its evaluation asks. */
  ghost predicate Same(e: Env, st: State, p: Provider, key: Key)
    requires AllWellBehaved(e, st) && WellBehaved(e, p)
    decreases e.rank(key), 2, 0
  {
    RegisteredBehaves(e, st, p);
    Eval(e, Registered(st, p), key) == Eval(e, st, key) && (key in st.overrides || FirstSame(e, st, p, key, 0))
  }

  ghost predicate FirstSame(e: Env, st: State, p: Provider, key: Key, i: nat)
    requires AllWellBehaved(e, st) && WellBehaved(e, p) && i <= |st.providers|
    decreases e.rank(key), 1, |st.providers| - i
  {
    i == |st.providers|
    || (ConverseSame(e, st, p, key, i, [])
        && (Converse(e, st, key, i, []).None? ==> FirstSame(e, st, p, key, i + 1)))
  }

  ghost predicate ConverseSame(e: Env, st: State, p: Provider, key: Key, i: nat, answers: seq<Option<Path>>)
    requires AllWellBehaved(e, st) && WellBehaved(e, p) && i < |st.providers|
    decreases e.rank(key), 0, e.limit - |answers|
  {
    assert WellBehaved(e, st.providers[i]);
    match st.providers[i].func(key, answers)
    case Ask(asked) => Same(e, st, p, asked) && ConverseSame(e, st, p, key, i, answers + [Eval(e, st, asked)])
    case _ => true
  }

  lemma {:induction false} Declines(e: Env, st: State, key: Key, i: nat)
    requires AllWellBehaved(e, st) && i < |st.providers| && !Claims(st.providers[i], key)
    ensures Converse(e, st, key, i, []) == None
  {
    assert WellBehaved(e, st.providers[i]);
  }

  /** A key that no provider from `i` on claims has no answer there. */
  lemma {:induction false} NoneClaims(e: Env, st: State, key: Key, i: nat)
    requires AllWellBehaved(e, st) && i <= |st.providers|
    requires forall j :: i <= j < |st.providers| ==> !Claims(st.providers[j], key)
    ensures FirstAnswer(e, st, key, i) == ""
    decreases |st.providers| - i
  {
    hide Claims;
    if i < |st.providers| {
      Declines(e, st, key, i);
      NoneClaims(e, st, key, i + 1);
    }
  }

  /** A key the new provider answers had no answer before. */
  lemma {:induction false} AnsweredIsNew(e: Env, st: State, p: Provider, key: Key)
    requires CanRegister(e, st, p)
    ensures AllWellBehaved(e, Registered(st, p))
    ensures Converse(e, Registered(st, p), key, 0, []).Some? ==> FirstAnswer(e, st, key, 0) == ""
  {
    hide WellBehaved, Claims;
    RegisteredBehaves(e, st, p);
    var st' := Registered(st, p);
    if Converse(e, st', key, 0, []).Some? {
      if !Claims(st'.providers[0], key) {
        Declines(e, st', key, 0);
      }
      forall j | 0 <= j < |st.providers|
        ensures !Claims(st.providers[j], key)
      {
        assert st'.providers[j + 1] == st.providers[j];
      }
      NoneClaims(e, st, key, 0);
    }
  }

  /**
   Exactly when a registration disturbs nothing: neither the answer for a key nor those its evaluation
   rests on change, if and only if the new provider gives no path for any of these keys.
   */
  lemma {:induction false} QuietIsSame(e: Env, st: State, p: Provider, key: Key)
    requires CanRegister(e, st, p)
    ensures Quiet(e, st, p, key) <==> Same(e, st, p, key)
    decreases e.rank(key), 2, 0
  {
    hide WellBehaved, Converse, ConverseQuiet, ConverseSame, Disjoint;
    RegisteredBehaves(e, st, p);
    AnsweredIsNew(e, st, p, key);
    QuietIsSameFirst(e, st, p, key, 0);
    var st' := Registered(st, p);
    var answer := Converse(e, st', key, 0, []);
    assert FirstAnswer(e, st', key, 0) == if answer.Some? then answer.value else FirstAnswer(e, st', key, 1);
    if key !in st.overrides && answer.Some? {
      assert Eval(e, st', key) == Finish(e, answer.value) && Eval(e, st, key) == None;
    }
  }

  lemma {:induction false} QuietIsSameFirst(e: Env, st: State, p: Provider, key: Key, i: nat)
    requires CanRegister(e, st, p) && i <= |st.providers|
    ensures AllWellBehaved(e, Registered(st, p))
    ensures FirstQuiet(e, st, p, key, i) <==> FirstSame(e, st, p, key, i)
    ensures FirstQuiet(e, st, p, key, i) ==>
              FirstAnswer(e, Registered(st, p), key, i + 1) == FirstAnswer(e, st, key, i)
    decreases e.rank(key), 1, |st.providers| - i
  {
    hide WellBehaved, Converse, ConverseQuiet, ConverseSame, Disjoint;
    RegisteredBehaves(e, st, p);
    if i < |st.providers| {
      QuietIsSameConverse(e, st, p, key, i, []);
      QuietIsSameFirst(e, st, p, key, i + 1);
    }
  }

  lemma {:induction false} QuietIsSameConverse(e: Env, st: State, p: Provider, key: Key, i: nat,
                                               answers: seq<Option<Path>>)
    requires CanRegister(e, st, p) && i < |st.providers|
    ensures AllWellBehaved(e, Registered(st, p))
    ensures ConverseQuiet(e, st, p, key, i, answers) <==> ConverseSame(e, st, p, key, i, answers)
    ensures ConverseQuiet(e, st, p, key, i, answers) ==>
              Converse(e, Registered(st, p), key, i + 1, answers) == Converse(e, st, key, i, answers)
    decreases e.rank(key), 0, e.limit - |answers|
  {
    hide Quiet, Disjoint;
    RegisteredBehaves(e, st, p);
    assert WellBehaved(e, st.providers[i]) && Registered(st, p).providers[i + 1] == st.providers[i];
    match st.providers[i].func(key, answers)
    case Ask(asked) =>
      QuietIsSame(e, st, p, asked);
      QuietIsSameConverse(e, st, p, key, i, answers + [Eval(e, st, asked)]);
    case _ =>
  }

  // ---------- Evaluations that ask only answerable keys ----------

  ghost predicate Grounded(e: Env, st: State, key: Key)
    requires AllWellBehaved(e, st)
    decreases e.rank(key), 2, 0
  {
    key in st.overrides || FirstGrounded(e, st, key, 0)
  }

  ghost predicate FirstGrounded(e: Env, st: State, key: Key, i: nat)
    requires AllWellBehaved(e, st) && i <= |st.providers|
    decreases e.rank(key), 1, |st.providers| - i
  {
    i == |st.providers|
    || (ConverseGrounded(e, st, key, i, [])
        && (Converse(e, st, key, i, []).None? ==> FirstGrounded(e, st, key, i + 1)))
  }

  ghost predicate ConverseGrounded(e: Env, st: State, key: Key, i: nat, answers: seq<Option<Path>>)
    requires AllWellBehaved(e, st) && i < |st.providers|
    decreases e.rank(key), 0, e.limit - |answers|
  {
    assert WellBehaved(e, st.providers[i]);
    match st.providers[i].func(key, answers)
    case Ask(asked) =>
      && Eval(e, st, asked).Some? && Grounded(e, st, asked)
      && ConverseGrounded(e, st, key, i, answers + [Eval(e, st, asked)])
    case _ => true
  }

  lemma {:induction false} DeclinesGrounded(e: Env, st: State, key: Key, i: nat)
    requires AllWellBehaved(e, st) && i < |st.providers| && !Claims(st.providers[i], key)
    ensures ConverseGrounded(e, st, key, i, [])
  {
    assert WellBehaved(e, st.providers[i]);
  }

  /** A provider with a range of its own does not claim a key that has an answer. */
  lemma {:induction false} AnsweredIsForeign(e: Env, st: State, p: Provider, key: Key)
    requires CanRegister(e, st, p) && FirstAnswer(e, st, key, 0) != ""
    ensures !Claims(p, key)
  {
    hide WellBehaved, Claims;
    var st' := Registered(st, p);
    if Claims(p, key) {
      assert st'.providers[0] == p;
      forall j | 0 <= j < |st.providers|
        ensures !Claims(st.providers[j], key)
      {
        assert st'.providers[j + 1] == st.providers[j];
      }
      NoneClaims(e, st, key, 0);
    }
  }

  /**
   An answer that came about by asking only answerable keys is quiet, whichever provider with a range
   of its own is registered, and is still such an answer afterwards.
   */
  lemma {:induction false} GroundedIsQuiet(e: Env, st: State, p: Provider, key: Key)
    requires CanRegister(e, st, p) && Eval(e, st, key).Some? && Grounded(e, st, key)
    ensures AllWellBehaved(e, Registered(st, p))
    ensures Quiet(e, st, p, key) && Grounded(e, Registered(st, p), key)
    decreases e.rank(key), 2, 0
  {
    hide WellBehaved, Converse, ConverseGrounded, ConverseQuiet, Disjoint, Claims;
    AnsweredIsNew(e, st, p, key);
    if key !in st.overrides {
      var st' := Registered(st, p);
      AnsweredIsForeign(e, st, p, key);
      assert st'.providers[0] == p;
      Declines(e, st', key, 0);
      DeclinesGrounded(e, st', key, 0);
      GroundedIsQuietFirst(e, st, p, key, 0);
    }
  }

  lemma {:induction false} GroundedIsQuietFirst(e: Env, st: State, p: Provider, key: Key, i: nat)
    requires CanRegister(e, st, p) && i <= |st.providers| && FirstGrounded(e, st, key, i)
    ensures AllWellBehaved(e, Registered(st, p))
    ensures FirstQuiet(e, st, p, key, i) && FirstGrounded(e, Registered(st, p), key, i + 1)
    decreases e.rank(key), 1, |st.providers| - i
  {
    hide WellBehaved, Converse, ConverseGrounded, ConverseQuiet, Disjoint;
    RegisteredBehaves(e, st, p);
    if i < |st.providers| {
      GroundedIsQuietConverse(e, st, p, key, i, []);
      QuietIsSameConverse(e, st, p, key, i, []);
      if Converse(e, st, key, i, []).None? {
        GroundedIsQuietFirst(e, st, p, key, i + 1);
      }
    }
  }

  lemma {:induction false} GroundedIsQuietConverse(e: Env, st: State, p: Provider, key: Key, i: nat,
                                                   answers: seq<Option<Path>>)
    requires CanRegister(e, st, p) && i < |st.providers| && ConverseGrounded(e, st, key, i, answers)
    ensures AllWellBehaved(e, Registered(st, p))
    ensures ConverseQuiet(e, st, p, key, i, answers) && ConverseGrounded(e, Registered(st, p), key, i + 1, answers)
    decreases e.rank(key), 0, e.limit - |answers|
  {
    hide Quiet, Disjoint, Grounded;
    RegisteredBehaves(e, st, p);
    assert WellBehaved(e, st.providers[i]) && Registered(st, p).providers[i + 1] == st.providers[i];
    match st.providers[i].func(key, answers)
    case Ask(asked) =>
      GroundedIsQuiet(e, st, p, asked);
      QuietIsSame(e, st, p, asked);
      GroundedIsQuietConverse(e, st, p, key, i, answers + [Eval(e, st, asked)]);
    case _ =>
  }

  // ---------- What a cache remembers ----------

  /** The keys a cache holds after `Get` of `key`, when it held `known` before. */
  ghost function Learn(e: Env, st: State, known: set<Key>, key: Key): set<Key>
    requires AllWellBehaved(e, st)
    decreases e.rank(key), 2, 0
  {
    if key in known || key in st.overrides then known + {key}
    else
      var more := FirstLearn(e, st, known, key, 0);
      if Eval(e, st, key).Some? then more + {key} else more
  }

  ghost function FirstLearn(e: Env, st: State, known: set<Key>, key: Key, i: nat): set<Key>
    requires AllWellBehaved(e, st) && i <= |st.providers|
    decreases e.rank(key), 1, |st.providers| - i
  {
    if i == |st.providers| then known
    else
      var more := ConverseLearn(e, st, known, key, i, []);
      if Converse(e, st, key, i, []).Some? then more else FirstLearn(e, st, more, key, i + 1)
  }

  ghost function ConverseLearn(e: Env, st: State, known: set<Key>, key: Key, i: nat,
                               answers: seq<Option<Path>>): set<Key>
    requires AllWellBehaved(e, st) && i < |st.providers|
    decreases e.rank(key), 0, e.limit - |answers|
  {
    assert WellBehaved(e, st.providers[i]);
    match st.providers[i].func(key, answers)
    case Ask(asked) =>
      ConverseLearn(e, st, Learn(e, st, known, asked), key, i, answers + [Eval(e, st, asked)])
    case _ => known
  }

  /** A registration changes none of the answers for the keys in `known`. */
  ghost predicate Undisturbed(e: Env, st: State, p: Provider, known: set<Key>)
    requires AllWellBehaved(e, st) && WellBehaved(e, p)
  {
    RegisteredBehaves(e, st, p);
    forall k :: k in known ==> Eval(e, Registered(st, p), k) == Eval(e, st, k)
  }

  /** What a caller can check before registering: the new provider is quiet for every key remembered. */
  lemma {:induction false} QuietUndisturbed(e: Env, st: State, p: Provider, known: set<Key>)
    requires CanRegister(e, st, p) && forall k :: k in known ==> Quiet(e, st, p, k)
    ensures Undisturbed(e, st, p, known)
  {
    hide Quiet, WellBehaved, Disjoint, Eval;
    forall k | k in known
      ensures Same(e, st, p, k)
    {
      QuietIsSame(e, st, p, k);
    }
  }

  // ---------- Remembering only what asked answerable keys ----------

  ghost predicate AllGrounded(e: Env, st: State, known: set<Key>)
    requires AllWellBehaved(e, st)
  {
    forall k :: k in known ==> Eval(e, st, k).Some? && Grounded(e, st, k)
  }

  lemma {:induction false} LearnGrounded(e: Env, st: State, known: set<Key>, key: Key)
    requires AllWellBehaved(e, st) && AllGrounded(e, st, known) && Grounded(e, st, key)
    ensures AllGrounded(e, st, Learn(e, st, known, key))
    decreases e.rank(key), 2, 0
  {
    hide WellBehaved, Converse, ConverseGrounded, ConverseLearn;
    if key !in known && key !in st.overrides {
      FirstLearnGrounded(e, st, known, key, 0);
    }
  }

  lemma {:induction false} FirstLearnGrounded(e: Env, st: State, known: set<Key>, key: Key, i: nat)
    requires AllWellBehaved(e, st) && i <= |st.providers|
    requires AllGrounded(e, st, known) && FirstGrounded(e, st, key, i)
    ensures AllGrounded(e, st, FirstLearn(e, st, known, key, i))
    decreases e.rank(key), 1, |st.providers| - i
  {
    hide WellBehaved, Converse, ConverseGrounded, ConverseLearn, AllGrounded;
    if i < |st.providers| {
      ConverseLearnGrounded(e, st, known, key, i, []);
      if Converse(e, st, key, i, []).None? {
        FirstLearnGrounded(e, st, ConverseLearn(e, st, known, key, i, []), key, i + 1);
      }
    }
  }

  lemma {:induction false} ConverseLearnGrounded(e: Env, st: State, known: set<Key>, key: Key, i: nat,
                                                 answers: seq<Option<Path>>)
    requires AllWellBehaved(e, st) && i < |st.providers|
    requires AllGrounded(e, st, known) && ConverseGrounded(e, st, key, i, answers)
    ensures AllGrounded(e, st, ConverseLearn(e, st, known, key, i, answers))
    decreases e.rank(key), 0, e.limit - |answers|
  {
    hide Learn, AllGrounded;
    assert WellBehaved(e, st.providers[i]);
    match st.providers[i].func(key, answers)
    case Ask(asked) =>
      LearnGrounded(e, st, known, asked);
      ConverseLearnGrounded(e, st, Learn(e, st, known, asked), key, i, answers + [Eval(e, st, asked)]);
    case _ =>
  }

  /** Such a memory is disturbed by no provider with a range of its own. */
  lemma {:induction false} GroundedUndisturbed(e: Env, st: State, p: Provider, known: set<Key>)
    requires CanRegister(e, st, p) && AllGrounded(e, st, known)
    ensures AllWellBehaved(e, Registered(st, p))
    ensures Undisturbed(e, st, p, known) && AllGrounded(e, Registered(st, p), known)
  {
    hide Quiet, WellBehaved, Disjoint, Eval, Grounded;
    RegisteredBehaves(e, st, p);
    forall k | k in known
      ensures Quiet(e, st, p, k) && Grounded(e, Registered(st, p), k)
    {
      GroundedIsQuiet(e, st, p, k);
    }
    QuietUndisturbed(e, st, p, known);
  }

  // ---------- Why the condition is there ----------

  const NO_FILES := Env((p: Path) => false, (p: Path) => p, (k: Key) => if k == 10 then 1 else 0, 1)

  /** Answers key 10 with "b", or with "a" when key 20 has no answer. */
  const READER := Provider(
    (k: Key, answers: seq<Option<Path>>) =>
      if k != 10 then Decline
      else if |answers| == 0 then Ask(20)
      else if answers[0].Some? then Answer("b")
      else Answer("a"),
    10, 11)

  const LATE := Provider((k: Key, answers: seq<Option<Path>>) => if k == 20 then Answer("c") else Decline, 20, 21)

  /** An answer that rests on a key without an answer can change when that key's provider is registered. */
  lemma {:induction false} NegativeReadsGoStale()
    ensures var st := State(map[], [READER]);
            && CanRegister(NO_FILES, st, LATE) && AllWellBehaved(NO_FILES, Registered(st, LATE))
            && Eval(NO_FILES, st, 10) == Some("a")
            && !Grounded(NO_FILES, st, 10) && !Quiet(NO_FILES, st, LATE, 10)
            && Eval(NO_FILES, Registered(st, LATE), 10) == Some("b")
  {
    var e, st := NO_FILES, State(map[], [READER]);
    var st' := Registered(st, LATE);
    assert WellBehaved(e, READER) && WellBehaved(e, LATE);
    RegisteredBehaves(e, st, LATE);
    assert st'.providers == [LATE, READER];
    assert Converse(e, st, 20, 0, []) == None;
    assert FirstAnswer(e, st, 20, 1) == "";
    assert Eval(e, st, 20) == None;
    assert Converse(e, st, 10, 0, [None]) == Some("a");
    assert Converse(e, st, 10, 0, []) == Some("a");
    assert !ConverseGrounded(e, st, 10, 0, []);
    assert Converse(e, st', 20, 0, []) == Some("c");
    assert Eval(e, st', 20) == Some("c");
    assert Converse(e, st', 10, 1, [Some("c")]) == Some("b");
    assert Converse(e, st', 10, 1, []) == Some("b");
    assert Converse(e, st', 10, 0, []) == None;
    assert FirstAnswer(e, st', 10, 1) == "b";
  }

  /** Overriding one key can change the answer for another: the reason the whole cache is cleared. */
  lemma {:induction false} OverrideChangesDependents()
    ensures var st, st' := State(map[], [READER]), State(map[20 := "c"], [READER]);
            && AllWellBehaved(NO_FILES, st) && AllWellBehaved(NO_FILES, st')
            && Eval(NO_FILES, st, 10) == Some("a") && Eval(NO_FILES, st', 10) == Some("b")
  {
    NegativeReadsGoStale();
    var e, st' := NO_FILES, State(map[20 := "c"], [READER]);
    assert WellBehaved(e, READER);
    assert Converse(e, st', 10, 0, [Some("c")]) == Some("b");
    assert Converse(e, st', 10, 0, []) == Some("b");
  }

  // ---------- The service ----------

  class PathService {
    const env: Env
    var cache: map<Key, Path>
    var overrides: map<Key, Path>
    var providers: seq<Provider>
    var cacheDisabled: bool

    ghost function Now(): State
      reads this
    {
      State(overrides, providers)
    }

    /** The cache holds nothing but what an evaluation would give. */
    ghost predicate Valid()
      reads this
    {
      && AllWellBehaved(env, Now())
      && (forall k :: k in cache ==> k != DIR_CURRENT && Eval(env, Now(), k) == Some(cache[k]))
      && (cacheDisabled ==> cache == map[])
    }

    constructor (env: Env, builtin: seq<Provider>)
      requires AllWellBehaved(env, State(map[], builtin))
      ensures Valid() && Now() == State(map[], builtin) && this.env == env && cache == map[]
      ensures !cacheDisabled
    {
      this.env := env;
      cache := map[];
      overrides := map[];
      providers := builtin;
      cacheDisabled := false;
    }

    method LockedGetFromCache(key: Key) returns (result: Option<Path>)
      requires cacheDisabled ==> cache == map[]
      ensures result == if key in cache then Some(cache[key]) else None
    {
      if cacheDisabled {
        return None;
      }
      result := if key in cache then Some(cache[key]) else None;
    }

    method LockedGetFromOverrides(key: Key) returns (result: Option<Path>)
      requires Valid() && key != DIR_CURRENT
      modifies this`cache
      ensures result == if key in overrides then Some(overrides[key]) else None
      ensures result.Some? && !cacheDisabled ==> key in cache && cache[key] == result.value
      ensures cache.Keys == if result.Some? && !cacheDisabled then old(cache).Keys + {key} else old(cache).Keys
      ensures Valid()
    {
      if key in overrides {
        if !cacheDisabled {
          cache := cache[key := overrides[key]];
        }
        return Some(overrides[key]);
      }
      result := None;
    }

    /** The keys in the cache after `Get` of `key`; a disabled cache stays empty. */
    ghost function Learnt(known: set<Key>, key: Key): set<Key>
      requires AllWellBehaved(env, Now())
      reads this
    {
      if cacheDisabled then {} else Learn(env, Now(), known, key)
    }

    /** The answer for `key`; `currentDirectory` is what the system says it is at this moment. */
    method Get(key: Key, currentDirectory: Option<Path>) returns (result: Option<Path>)
      requires DIR_CURRENT <= key && AllWellBehaved(env, Now()) && (cacheDisabled ==> cache == map[])
      requires Valid() || (key != DIR_CURRENT && key in cache)
      modifies this`cache
      ensures old(Valid()) ==>
                && Valid()
                && result == (if key == DIR_CURRENT then currentDirectory else Eval(env, Now(), key))
                && cache.Keys == (if key == DIR_CURRENT then old(cache).Keys else Learnt(old(cache).Keys, key))
      ensures old(Valid()) && key != DIR_CURRENT ==> IsReply(env, Now(), key, result)
      ensures old(Valid()) && key != DIR_CURRENT && key !in overrides && AbsoluteIsClean(env) ==>
                (result.Some? ==> result.value != "" && !env.referencesParent(result.value))
      ensures key != DIR_CURRENT && key in old(cache) ==> result == Some(old(cache[key])) && cache == old(cache)
      ensures key != DIR_CURRENT && result.Some? && !cacheDisabled ==> key in cache && cache[key] == result.value
      decreases env.rank(key), 1
    {
      hide WellBehaved, Converse, ConverseLearn, IsReply, AbsoluteIsClean;
      if key == DIR_CURRENT {
        return currentDirectory;
      }
      EvalIsClean(env, Now(), key);
      result := LockedGetFromCache(key);
      if result.Some? {
        return;
      }
      result := LockedGetFromOverrides(key);
      if result.Some? {
        return;
      }
      var path := "";
      var i := 0;
      while i < |providers|
        invariant 0 <= i <= |providers| && Valid()
        invariant path == "" && FirstAnswer(env, Now(), key, 0) == FirstAnswer(env, Now(), key, i)
        invariant cacheDisabled ||
                  FirstLearn(env, Now(), old(cache).Keys, key, 0) == FirstLearn(env, Now(), cache.Keys, key, i)
      {
        var answer := Consult(key, i, currentDirectory);
        if answer.Some? {
          path := answer.value;
          break;
        }
        i := i + 1;
      }
      assert path == FirstAnswer(env, Now(), key, 0);
      if path == "" {
        return None;
      }
      if env.referencesParent(path) {
        path := env.absolute(path);
        if path == "" {
          return None;
        }
      }
      result := Some(path);
      if !cacheDisabled {
        cache := cache[key := path];
      }
    }

    /** Calls provider `i`, serving the keys it asks for. */
    method Consult(key: Key, i: nat, currentDirectory: Option<Path>) returns (result: Option<Path>)
      requires Valid() && i < |providers|
      modifies this`cache
      ensures Valid() && result == Converse(env, Now(), key, i, [])
      ensures cacheDisabled || cache.Keys == ConverseLearn(env, Now(), old(cache).Keys, key, i, [])
      decreases env.rank(key), 0
    {
      var p := providers[i];
      var answers: seq<Option<Path>> := [];
      while true
        invariant Valid() && |answers| <= env.limit
        invariant Converse(env, Now(), key, i, []) == Converse(env, Now(), key, i, answers)
        invariant cacheDisabled || ConverseLearn(env, Now(), old(cache).Keys, key, i, [])
                                   == ConverseLearn(env, Now(), cache.Keys, key, i, answers)
        decreases env.limit - |answers|
      {
        assert WellBehaved(env, p);
        match p.func(key, answers) {
          case Answer(path) => return Some(path);
          case Decline => return None;
          case Ask(asked) =>
            var answer := Get(asked, currentDirectory);
            answers := answers + [answer];
        }
      }
    }

    /** `prepared` says whether the directory exists or could be created. */
    method OverrideAndCreateIfNeeded(key: Key, path: Path, isAbsolute: bool, create: bool, prepared: bool)
      returns (ok: bool)
      requires Valid() && DIR_CURRENT < key
      modifies this`cache, this`overrides
      ensures Valid()
      ensures ok == ((create ==> prepared) && (!isAbsolute ==> env.absolute(path) != ""))
      ensures if ok then
                var newPath := if isAbsolute then path else env.absolute(path);
                Now() == old(Now()).(overrides := old(overrides)[key := newPath]) && cache == map[]
              else
                Now() == old(Now()) && cache == old(cache)
    {
      var filePath := path;
      if create {
        if !prepared {
          return false;
        }
      }
      if !isAbsolute {
        filePath := env.absolute(filePath);
        if filePath == "" {
          return false;
        }
      }
      cache := map[];
      overrides := overrides[key := filePath];
      ok := true;
    }

    method RemoveOverride(key: Key) returns (removed: bool)
      requires Valid()
      modifies this`cache, this`overrides
      ensures Valid()
      ensures removed == (key in old(overrides)) && cache == if removed then map[] else old(cache)
      ensures Now() == old(Now()).(overrides := old(overrides) - {key})
    {
      if key !in overrides {
        return false;
      }
      cache := map[];
      overrides := overrides - {key};
      removed := true;
    }

    /** The cache stays, and stays right exactly if no answer in it changes. */
    method RegisterProvider(p: Provider)
      requires Valid() && CanRegister(env, Now(), p)
      modifies this`providers
      ensures Now() == Registered(old(Now()), p) && AllWellBehaved(env, Now())
      ensures Valid() <==> Undisturbed(env, old(Now()), p, cache.Keys)
    {
      RegisteredBehaves(env, Now(), p);
      providers := [p] + providers;
    }

    method DisableCache()
      requires Valid()
      modifies this`cache, this`cacheDisabled
      ensures Valid() && cacheDisabled && cache == map[]
    {
      cache := map[];
      cacheDisabled := true;
    }
  }

  /** Key 10 has a path with a ".." in it that is "/b"; that of key 11 cannot be made absolute. */
  const DOTTED := Env(
    (p: Path) => p == "/a/../b" || p == "/..",
    (p: Path) => if p == "/a/../b" then "/b" else "",
    (k: Key) => 0, 0)

  const PARENTS := Provider(
    (k: Key, answers: seq<Option<Path>>) =>
      if k == 10 then Answer("/a/../b") else if k == 11 then Answer("/..") else Decline,
    10, 12)

  lemma DottedAnswers()
    ensures var st := State(map[], [PARENTS]);
            && AllWellBehaved(DOTTED, st)
            && Eval(DOTTED, st, 10) == Some("/b") && Eval(DOTTED, st, 11) == None
  {
    var st := State(map[], [PARENTS]);
    assert WellBehaved(DOTTED, PARENTS);
    assert Converse(DOTTED, st, 10, 0, []) == Some("/a/../b");
    assert Converse(DOTTED, st, 11, 0, []) == Some("/..");
  }

  /** The service does not hand out these paths as they are. */
  method ParentIsResolved() returns (first: Option<Path>, second: Option<Path>)
    ensures first == Some("/b") && second == None
  {
    hide Eval, Learn, WellBehaved, IsReply, AbsoluteIsClean;
    DottedAnswers();
    var service := new PathService(DOTTED, [PARENTS]);
    first := service.Get(10, None);
    second := service.Get(11, None);
  }

  /**
   The service itself hands out the stale answer: after key 20 got its provider, key 10 is still "a",
   which an evaluation would no longer give.
   */
  method StaleReply() returns (first: Option<Path>, second: Option<Path>)
    ensures first == second == Some("a")
    ensures var st := Registered(State(map[], [READER]), LATE);
            AllWellBehaved(NO_FILES, st) && Eval(NO_FILES, st, 10) == Some("b")
  {
    NegativeReadsGoStale();
    var service := new PathService(NO_FILES, [READER]);
    first := service.Get(10, None);
    service.RegisterProvider(LATE);
    second := service.Get(10, None);
  }

  /** Whenever a registration changes the answer for a remembered key, that key is answered wrongly from then on. */
  method Disturbed(service: PathService, p: Provider, key: Key, currentDirectory: Option<Path>)
    returns (reply: Option<Path>)
    requires service.Valid() && CanRegister(service.env, service.Now(), p) && key in service.cache
    requires AllWellBehaved(service.env, Registered(service.Now(), p))
    requires Eval(service.env, Registered(service.Now(), p), key) != Eval(service.env, service.Now(), key)
    requires DIR_CURRENT < key
    modifies service
    ensures service.Now() == Registered(old(service.Now()), p) && AllWellBehaved(service.env, service.Now())
    ensures reply == Eval(service.env, old(service.Now()), key) != Eval(service.env, service.Now(), key)
  {
    service.RegisterProvider(p);
    reply := service.Get(key, currentDirectory);
  }

  // ---------- Whole runs ----------

  datatype Op =
    | Get(key: Key, currentDirectory: Option<Path>)
    | Override(key: Key, path: Path, isAbsolute: bool, create: bool, prepared: bool)
    | RemoveOverride(key: Key)
    | Register(provider: Provider)
    | DisableCache

  datatype Reply = Found(path: Option<Path>) | Done(ok: bool)

  /** The state, the keys a cache would remember, and whether there is one. */
  datatype Session = Session(state: State, known: set<Key>, caching: bool)

  /** What callers and providers must keep to; a new provider must change no answer that is remembered. */
  ghost predicate Legal(e: Env, s: Session, op: Op) {
    && AllWellBehaved(e, s.state)
    && match op
       case Get(key, _) => DIR_CURRENT <= key
       case Override(key, _, _, _, _) => DIR_CURRENT < key
       case Register(p) => CanRegister(e, s.state, p) && Undisturbed(e, s.state, p, s.known)
       case _ => true
  }

  /** The meaning of a call, computed without a cache. */
  ghost function Next(e: Env, s: Session, op: Op): (r: (Session, Reply))
    requires AllWellBehaved(e, s.state)
  {
    var st := s.state;
    match op
    case Get(key, cwd) =>
      if key == DIR_CURRENT then (s, Found(cwd))
      else (s.(known := if s.caching then Learn(e, st, s.known, key) else {}), Found(Eval(e, st, key)))
    case Override(key, path, isAbsolute, create, prepared) =>
      if (create && !prepared) || (!isAbsolute && e.absolute(path) == "") then (s, Done(false))
      else
        var newPath := if isAbsolute then path else e.absolute(path);
        (s.(state := st.(overrides := st.overrides[key := newPath]), known := {}), Done(true))
    case RemoveOverride(key) =>
      if key !in st.overrides then (s, Done(false))
      else (s.(state := st.(overrides := st.overrides - {key}), known := {}), Done(true))
    case Register(p) => (s.(state := Registered(st, p)), Done(true))
    case DisableCache => (s.(known := {}, caching := false), Done(true))
  }

  ghost predicate LegalRun(e: Env, s: Session, ops: seq<Op>)
    decreases |ops|
  {
    |ops| == 0 || (Legal(e, s, ops[0]) && LegalRun(e, Next(e, s, ops[0]).0, ops[1..]))
  }

  ghost function Replies(e: Env, s: Session, ops: seq<Op>): seq<Reply>
    requires LegalRun(e, s, ops)
    decreases |ops|
  {
    if |ops| == 0 then []
    else
      var next := Next(e, s, ops[0]);
      [next.1] + Replies(e, next.0, ops[1..])
  }

  /** Providers have ranges of their own, and whatever is asked for asks only answerable keys. */
  ghost predicate Answerable(e: Env, s: Session, ops: seq<Op>)
    decreases |ops|
  {
    |ops| == 0 || (AnswerableOp(e, s.state, ops[0]) && Answerable(e, Next(e, s, ops[0]).0, ops[1..]))
  }

  ghost predicate AnswerableOp(e: Env, st: State, op: Op) {
    && AllWellBehaved(e, st)
    && match op
       case Get(key, _) => DIR_CURRENT <= key && (key == DIR_CURRENT || Grounded(e, st, key))
       case Override(key, _, _, _, _) => DIR_CURRENT < key
       case Register(p) => CanRegister(e, st, p)
       case _ => true
  }

  /** Then no registration changes a remembered answer. */
  lemma {:induction false} AnswerableIsLegal(e: Env, s: Session, ops: seq<Op>)
    requires AllWellBehaved(e, s.state) && AllGrounded(e, s.state, s.known) && Answerable(e, s, ops)
    ensures LegalRun(e, s, ops)
    decreases |ops|
  {
    hide Grounded, Eval, CanRegister, Undisturbed, AllWellBehaved, Learn;
    if |ops| > 0 {
      var next := Next(e, s, ops[0]).0;
      match ops[0] {
        case Get(key, _) =>
          if key != DIR_CURRENT {
            LearnGrounded(e, s.state, s.known, key);
          }
        case Register(p) => GroundedUndisturbed(e, s.state, p, s.known);
        case _ => SameProviders(e, s, ops[0]);
      }
      AnswerableIsLegal(e, next, ops[1..]);
    }
  }

  lemma SameProviders(e: Env, s: Session, op: Op)
    requires AllWellBehaved(e, s.state) && !op.Register?
    ensures AllWellBehaved(e, Next(e, s, op).0.state)
  {
    hide WellBehaved, Eval, Learn;
  }

  ghost predicate Follows(service: PathService, s: Session)
    reads service
  {
    service.Valid() && service.Now() == s.state && service.cache.Keys == s.known && service.cacheDisabled == !s.caching
  }

  /** One call made on the service; it goes on following the session. */
  method Serve(service: PathService, op: Op, ghost s: Session) returns (reply: Reply)
    requires Follows(service, s) && Legal(service.env, s, op)
    modifies service
    ensures Follows(service, Next(service.env, s, op).0) && reply == Next(service.env, s, op).1
  {
    match op {
      case Get(key, cwd) =>
        var path := service.Get(key, cwd);
        reply := Found(path);
      case Override(key, path, isAbsolute, create, prepared) =>
        var ok := service.OverrideAndCreateIfNeeded(key, path, isAbsolute, create, prepared);
        reply := Done(ok);
      case RemoveOverride(key) =>
        var removed := service.RemoveOverride(key);
        reply := Done(removed);
      case Register(p) =>
        service.RegisterProvider(p);
        reply := Done(true);
      case DisableCache =>
        service.DisableCache();
        reply := Done(true);
    }
  }

  function Fresh(builtin: seq<Provider>): Session {
    Session(State(map[], builtin), {}, true)
  }

  /** The state in which call number `i` of a run is made. */
  ghost function StateAt(e: Env, s: Session, ops: seq<Op>, i: nat): (st: State)
    requires LegalRun(e, s, ops) && i < |ops|
    ensures AllWellBehaved(e, st)
    decreases |ops|
  {
    if i == 0 then s.state else StateAt(e, Next(e, s, ops[0]).0, ops[1..], i - 1)
  }

  /**
   A `Get` of a key is answered by its override or else by what the first provider that answers gave, with
   no ".." in it if paths made absolute have none; the current directory is what the system says.
   */
  ghost predicate RightReply(e: Env, s: Session, ops: seq<Op>, i: nat, reply: Reply)
    requires LegalRun(e, s, ops) && i < |ops|
  {
    match ops[i]
    case Get(key, cwd) =>
      && reply.Found?
      && (if key == DIR_CURRENT then reply.path == cwd
          else
            && IsReply(e, StateAt(e, s, ops, i), key, reply.path)
            && (AbsoluteIsClean(e) && key !in StateAt(e, s, ops, i).overrides && reply.path.Some? ==>
                  reply.path.value != "" && !e.referencesParent(reply.path.value)))
    case _ => reply.Done?
  }

  lemma {:induction false} RepliesAreRight(e: Env, s: Session, ops: seq<Op>, i: nat)
    requires LegalRun(e, s, ops) && i < |ops|
    ensures |Replies(e, s, ops)| == |ops| && RightReply(e, s, ops, i, Replies(e, s, ops)[i])
    decreases |ops|
  {
    hide IsReply, AbsoluteIsClean, AllWellBehaved, WellBehaved, Eval, Learn, Undisturbed, CanRegister;
    RepliesLength(e, s, ops);
    if i == 0 {
      if ops[0].Get? && ops[0].key != DIR_CURRENT {
        EvalIsClean(e, s.state, ops[0].key);
      }
    } else {
      RepliesAreRight(e, Next(e, s, ops[0]).0, ops[1..], i - 1);
    }
  }

  lemma AllRepliesAreRight(e: Env, s: Session, ops: seq<Op>)
    requires LegalRun(e, s, ops)
    ensures |Replies(e, s, ops)| == |ops|
    ensures forall i :: 0 <= i < |ops| ==> RightReply(e, s, ops, i, Replies(e, s, ops)[i])
  {
    hide RightReply, LegalRun, Replies;
    RepliesLength(e, s, ops);
    forall i | 0 <= i < |ops|
      ensures RightReply(e, s, ops, i, Replies(e, s, ops)[i])
    {
      RepliesAreRight(e, s, ops, i);
    }
  }

  lemma {:induction false} RepliesLength(e: Env, s: Session, ops: seq<Op>)
    requires LegalRun(e, s, ops)
    ensures |Replies(e, s, ops)| == |ops|
    decreases |ops|
  {
    hide Next, AllWellBehaved;
    if |ops| > 0 {
      RepliesLength(e, Next(e, s, ops[0]).0, ops[1..]);
    }
  }

  /** In every run of calls that do not overlap, every reply is what a service without a cache would give. */
  method ServeAll(e: Env, builtin: seq<Provider>, ops: seq<Op>) returns (replies: seq<Reply>)
    requires AllWellBehaved(e, Fresh(builtin).state) && LegalRun(e, Fresh(builtin), ops)
    ensures replies == Replies(e, Fresh(builtin), ops)
    ensures |replies| == |ops| && forall i :: 0 <= i < |ops| ==> RightReply(e, Fresh(builtin), ops, i, replies[i])
  {
    hide Next, Legal, AllWellBehaved, RightReply;
    AllRepliesAreRight(e, Fresh(builtin), ops);
    var service := new PathService(e, builtin);
    replies := [];
    ghost var s := Fresh(builtin);
    var i := 0;
    assert ops[0..] == ops;
    ghost var all := Replies(e, s, ops);
    while i < |ops|
      invariant 0 <= i <= |ops| && fresh(service) && service.env == e && Follows(service, s)
      invariant LegalRun(e, s, ops[i..])
      invariant all == replies + Replies(e, s, ops[i..])
    {
      ghost var later := ops[i + 1..];
      assert ops[i..] == [ops[i]] + later && ops[i..][1..] == later;
      ghost var next := Next(e, s, ops[i]);
      var reply := Serve(service, ops[i], s);
      assert all == replies + ([reply] + Replies(e, next.0, later));
      s := next.0;
      replies := replies + [reply];
      i := i + 1;
    }
  }
}
