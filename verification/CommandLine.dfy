/**
 The command line: a token vector with the program first, then the switches, then the
 arguments, and beside it a map from switch names to values.
 */
module CommandLines {
  import opened Options
  import opened Sequences
  import opened CommandLineQuoting

  /** On Windows names are lower-cased and, unless turned off, a slash starts a switch. */
  datatype Platform = Windows(slash: bool) | Posix

  const TERMINATOR := "--"

  function Prefixes(pl: Platform): seq<string> {
    if pl == Windows(true) then ["--", "-", "/"] else ["--", "-"]
  }

  function FirstPrefix(prefixes: seq<string>, s: string): (n: nat)
    ensures n <= |s|
  {
    if prefixes == [] then 0
    else if prefixes[0] <= s then |prefixes[0]|
    else FirstPrefix(prefixes[1..], s)
  }

  function PrefixLength(pl: Platform, s: string): (n: nat)
    ensures n == if "--" <= s then 2 else if "-" <= s || (pl == Windows(true) && "/" <= s) then 1 else 0
  {
    assert ["--", "-", "/"][1..] == ["-", "/"] && ["-", "/"][1..] == ["/"];
    assert ["--", "-"][1..] == ["-"] && ["-"][1..] == [] && ["/"][1..] == [];
    assert FirstPrefix([], s) == 0;
    assert FirstPrefix(["/"], s) == if "/" <= s then 1 else 0;
    assert FirstPrefix(["-"], s) == if "-" <= s then 1 else 0;
    assert FirstPrefix(["-", "/"], s) == if "-" <= s || "/" <= s then 1 else 0;
    FirstPrefix(Prefixes(pl), s)
  }

  method GetSwitchPrefixLength(pl: Platform, s: string) returns (n: nat)
    ensures n == PrefixLength(pl, s)
  {
    var prefixes := Prefixes(pl);
    for i := 0 to |prefixes|
      invariant FirstPrefix(prefixes[i..], s) == PrefixLength(pl, s)
    {
      assert prefixes[i..][1..] == prefixes[i + 1..];
      if prefixes[i] <= s {
        return |prefixes[i]|;
      }
    }
    return 0;
  }

  predicate IsSwitch(pl: Platform, s: string) {
    0 < PrefixLength(pl, s) < |s|
  }

  /** The part of a switch before the first equals sign, its prefix included. */
  function NameOf(s: string): string {
    s[..FirstIndex(s, '=')]
  }

  function ValueOf(s: string): string {
    if '=' in s then s[FirstIndex(s, '=') + 1..] else ""
  }

  function LowerChar(c: char): char {
    if 'A' <= c <= 'Z' then (c as int - 'A' as int + 'a' as int) as char else c
  }

  function Lower(pl: Platform, s: string): string {
    if pl == Posix then s else seq(|s|, i requires 0 <= i < |s| => LowerChar(s[i]))
  }

  predicate IsSpace(pl: Platform, c: char) {
    || '\U{0009}' <= c <= '\U{000D}' || c == ' '
    || (pl != Posix && (|| c in {'\U{0085}', '\U{00A0}', '\U{1680}', '\U{2028}', '\U{2029}',
                                 '\U{202F}', '\U{205F}', '\U{3000}'}
                        || '\U{2000}' <= c <= '\U{200A}'))
  }

  function TrimLeft(pl: Platform, s: string): string {
    if s != "" && IsSpace(pl, s[0]) then TrimLeft(pl, s[1..]) else s
  }

  function TrimRight(pl: Platform, s: string): string {
    if s != "" && IsSpace(pl, s[|s| - 1]) then TrimRight(pl, s[..|s| - 1]) else s
  }

  function Trim(pl: Platform, s: string): string {
    TrimRight(pl, TrimLeft(pl, s))
  }

  predicate Trimmed(pl: Platform, s: string) {
    s != "" ==> !IsSpace(pl, s[0]) && !IsSpace(pl, s[|s| - 1])
  }

  // ---------- The command line as a value ----------

  /** The three parts of the token vector and the switch map. */
  datatype Cmd = Cmd(program: string, switchTokens: seq<string>, args: seq<string>, switches: map<string, string>)

  function Argv(c: Cmd): seq<string> {
    [c.program] + c.switchTokens + c.args
  }

  function SwitchToken(pl: Platform, name: string, value: string): string {
    var lower := Lower(pl, name);
    (if PrefixLength(pl, lower) == 0 then "--" + lower else lower) + (if value == "" then "" else "=" + value)
  }

  function SwitchKey(pl: Platform, name: string): string {
    var lower := Lower(pl, name);
    lower[PrefixLength(pl, lower)..]
  }

  function AppendSwitch(pl: Platform, c: Cmd, name: string, value: string): Cmd {
    c.(switchTokens := c.switchTokens + [SwitchToken(pl, name, value)],
       switches := c.switches[SwitchKey(pl, name) := value])
  }

  /** What a switch, asked for without a prefix, is set to. */
  function Lookup(pl: Platform, c: Cmd, name: string): Option<string> {
    if Lower(pl, name) in c.switches then Some(c.switches[Lower(pl, name)]) else None
  }

  /** Appends trimmed items one after another, reading switches until the terminator. */
  function AppendItems(pl: Platform, c: Cmd, items: seq<string>, parse: bool): Cmd
    decreases |items|
  {
    if items == [] then c
    else
      var parse' := parse && items[0] != TERMINATOR;
      var c' := if parse' && IsSwitch(pl, items[0])
                then AppendSwitch(pl, c, NameOf(items[0]), ValueOf(items[0]))
                else c.(args := c.args + [items[0]]);
      AppendItems(pl, c', items[1..], parse')
  }

  function TrimAll(pl: Platform, argv: seq<string>): seq<string> {
    seq(|argv|, i requires 0 <= i < |argv| => Trim(pl, argv[i]))
  }

  /** The items of a token vector: all but the program, trimmed. */
  function Items(pl: Platform, argv: seq<string>): seq<string> {
    if argv == [] then [] else TrimAll(pl, argv[1..])
  }

  function InitFrom(pl: Platform, argv: seq<string>): Cmd {
    AppendItems(pl, Cmd(if argv == [] then "" else Trim(pl, argv[0]), [], [], map[]), Items(pl, argv), true)
  }

  function PrintToken(pl: Platform, token: string, parse: bool): string {
    if parse && IsSwitch(pl, token) then
      var value := ValueOf(token);
      if value == "" then NameOf(token)
      else NameOf(token) + ("=" + if pl == Posix then value else Quoted(value))
    else if pl == Posix then token else Quoted(token)
  }

  /** The tokens from number `i` on, each but the very first preceded by a space. */
  function Rest(pl: Platform, tokens: seq<string>, i: nat, parse: bool): string
    requires i <= |tokens|
    decreases |tokens| - i
  {
    if i == |tokens| then ""
    else
      var parse' := parse && tokens[i] != TERMINATOR;
      (if i > 0 then " " else "") + PrintToken(pl, tokens[i], parse') + Rest(pl, tokens, i + 1, parse')
  }

  function ArgumentsString(pl: Platform, tokens: seq<string>): string {
    Rest(pl, tokens, 0, true)
  }

  // ---------- The mutable command line ----------

  class CommandLine {
    const platform: Platform
    var argv: seq<string>
    var switches: map<string, string>
    var beginArgs: nat

    ghost predicate Valid()
      reads this
    {
      1 <= beginArgs <= |argv|
    }

    ghost function Value(): Cmd
      requires Valid()
      reads this
    {
      Cmd(argv[0], argv[1..beginArgs], argv[beginArgs..], switches)
    }

    constructor (platform: Platform, argv: seq<string>)
      ensures Valid() && this.platform == platform && Value() == InitFrom(platform, argv)
    {
      this.platform := platform;
      this.argv, beginArgs, switches := [""], 1, map[];
      new;
      InitFromArgv(argv);
    }

    method InitFromArgv(argv: seq<string>)
      modifies this
      ensures Valid() && Value() == InitFrom(platform, argv)
      ensures this.argv == Argv(InitFrom(platform, argv))
    {
      this.argv, switches, beginArgs := [""], map[], 1;
      this.argv := this.argv[0 := if argv == [] then "" else Trim(platform, argv[0])];
      assert Value() == Cmd(this.argv[0], [], [], map[]);
      AppendSwitchesAndArguments(argv);
      VectorOfValue(this.argv, beginArgs);
      assert Argv(Value()) == this.argv;
    }

    method AppendSwitchesAndArguments(argv: seq<string>)
      requires Valid()
      modifies this
      ensures Valid() && Value() == AppendItems(platform, old(Value()), Items(platform, argv), true)
    {
      ghost var items := Items(platform, argv);
      var parseSwitches := true;
      var i := 1;
      while i < |argv|
        invariant Valid() && 1 <= i && (i <= |argv| || argv == [])
        invariant AppendItems(platform, Value(), if argv == [] then [] else items[i - 1..], parseSwitches)
                  == AppendItems(platform, old(Value()), items, true)
      {
        var arg := Trim(platform, argv[i]);
        assert arg == items[i - 1] && items[i - 1..][1..] == items[i..];
        parseSwitches := parseSwitches && arg != TERMINATOR;
        if parseSwitches && IsSwitch(platform, arg) {
          AppendSwitchNative(NameOf(arg), ValueOf(arg));
        } else {
          AppendArgNative(arg);
        }
        i := i + 1;
      }
    }

    method AppendSwitchNative(name: string, value: string)
      requires Valid()
      modifies this
      ensures Valid() && Value() == AppendSwitch(platform, old(Value()), name, value)
    {
      var key := Lower(platform, name);
      var combined := key;
      var prefix := GetSwitchPrefixLength(platform, combined);
      switches := switches[key[prefix..] := value];
      if prefix == 0 {
        combined := "--" + combined;
      }
      if value != "" {
        combined := combined + ("=" + value);
      }
      assert combined == SwitchToken(platform, name, value);
      argv := argv[..beginArgs] + [combined] + argv[beginArgs..];
      beginArgs := beginArgs + 1;
    }

    method HasSwitch(name: string) returns (has: bool)
      requires Valid()
      ensures has <==> Lookup(platform, Value(), name).Some?
    {
      has := Lower(platform, name) in switches;
    }

    /** An absent switch has an empty value. */
    method GetSwitchValueNative(name: string) returns (value: string)
      requires Valid()
      ensures value == match Lookup(platform, Value(), name) case Some(v) => v case None => ""
    {
      value := if Lower(platform, name) in switches then switches[Lower(platform, name)] else "";
    }

    method AppendArgNative(value: string)
      requires Valid()
      modifies this
      ensures Valid() && Value() == old(Value()).(args := old(Value()).args + [value])
    {
      argv := argv + [value];
    }

    /** Prints one token behind `params`. */
    method AppendToken(params: string, arg: string, parseSwitches: bool) returns (result: string)
      ensures result == params + PrintToken(platform, arg, parseSwitches)
    {
      hide Quoted, IsSwitch, ValueOf, NameOf;
      if parseSwitches && IsSwitch(platform, arg) {
        result := params + NameOf(arg);
        var value := ValueOf(arg);
        if value != "" {
          if platform != Posix {
            value := Quote(value);
          }
          result := result + ("=" + value);
          Associate(params, NameOf(arg), "=" + value, "");
        }
      } else {
        var printed := arg;
        if platform != Posix {
          printed := Quote(arg);
        }
        result := params + printed;
      }
    }

    /** The tokens after the program, quoted on Windows, separated by spaces. */
    method GetArgumentsString() returns (params: string)
      requires Valid()
      ensures params == ArgumentsString(platform, argv[1..])
    {
      hide PrintToken;
      params := "";
      var parseSwitches := true;
      ghost var tokens := argv[1..];
      var i := 1;
      while i < |argv|
        invariant 1 <= i <= |argv|
        invariant params + Rest(platform, tokens, i - 1, parseSwitches) == ArgumentsString(platform, tokens)
      {
        ghost var done := params;
        var arg := argv[i];
        assert arg == tokens[i - 1];
        parseSwitches := parseSwitches && arg != TERMINATOR;
        if i > 1 {
          params := params + " ";
        }
        params := AppendToken(params, arg, parseSwitches);
        i := i + 1;
        Associate(done, if i > 2 then " " else "", PrintToken(platform, arg, parseSwitches),
                  Rest(platform, tokens, i - 1, parseSwitches));
      }
      assert params + "" == params;
    }
  }

  lemma Associate(a: string, b: string, c: string, d: string)
    ensures a + b + c + d == a + (b + c + d) && a + b + c == a + (b + c)
  {
  }

  lemma VectorOfValue(argv: seq<string>, begin: nat)
    requires 1 <= begin <= |argv|
    ensures argv == [argv[0]] + argv[1..begin] + argv[begin..]
  {
  }

  // ---------- The printed arguments split back ----------

  function PieceAt(pl: Platform, tokens: seq<string>, i: nat): Piece
    requires i < |tokens|
  {
    PieceOf(pl, tokens[i], TERMINATOR !in tokens[..i + 1])
  }

  function PieceOf(pl: Platform, token: string, parse: bool): Piece {
    if parse && IsSwitch(pl, token) then Switch(NameOf(token), '=' in token, ValueOf(token)) else Plain(token)
  }

  /** Tokens as they are printed; switches are recognised up to the terminator. */
  function Pieces(pl: Platform, tokens: seq<string>): seq<Piece> {
    seq(|tokens|, i requires 0 <= i < |tokens| => PieceAt(pl, tokens, i))
  }

  lemma {:induction false} PieceText(pl: Platform, token: string, parse: bool)
    ensures Text(PieceOf(pl, token, parse)) == token
    ensures pl != Posix ==> Printed(PieceOf(pl, token, parse)) == PrintToken(pl, token, parse)
  {
    var i := FirstIndex(token, '=');
    if i < |token| {
      assert token == token[..i] + "=" + token[i + 1..];
    }
    Associate(NameOf(token), "=", Quoted(ValueOf(token)), "");
  }

  lemma {:induction false} PieceWellFormed(pl: Platform, token: string, parse: bool)
    ensures WellFormed(PieceOf(pl, token, parse))
  {
    if NameOf(token) == "" && '=' in token {
      assert token[0] == '=';
    }
  }

  lemma {:induction false} RestIsLine(pl: Platform, tokens: seq<string>, i: nat)
    requires pl != Posix && i <= |tokens|
    ensures Rest(pl, tokens, i, TERMINATOR !in tokens[..i])
            == (if 0 < i < |tokens| then " " else "") + Line(Pieces(pl, tokens)[i..])
    decreases |tokens| - i
  {
    hide PieceOf, PrintToken, Printed;
    if i < |tokens| {
      RestIsLine(pl, tokens, i + 1);
      assert tokens[..i + 1] == tokens[..i] + [tokens[i]];
      PieceText(pl, tokens[i], TERMINATOR !in tokens[..i + 1]);
      var ps := Pieces(pl, tokens);
      assert ps[i..][0] == ps[i] && ps[i..][1..] == ps[i + 1..];
      var sep := if i > 0 then " " else "";
      if i + 1 == |tokens| {
        assert sep + Printed(ps[i]) + "" == sep + Printed(ps[i]);
        assert ps[i + 1..] == [];
      } else {
        Associate(sep, Printed(ps[i]), " ", Line(ps[i + 1..]));
        Associate(Printed(ps[i]), " ", Line(ps[i + 1..]), "");
        Associate(sep, Printed(ps[i]), " " + Line(ps[i + 1..]), "");
      }
    }
  }

  /**
   On Windows, splitting the arguments string gives back the tokens exactly if every one is a good
   piece: arguments are nonempty and quoted if they hold a tab; switch names hold no blank and no
   quote, values are quoted if they hold a tab, and no switch ends in a bare equals sign.
   */
  lemma {:induction false} ArgumentsStringRoundTrip(pl: Platform, tokens: seq<string>)
    requires pl != Posix
    ensures SplitLine(ArgumentsString(pl, tokens)) == tokens
            <==> forall i :: 0 <= i < |tokens| ==> Good(PieceAt(pl, tokens, i))
  {
    hide Good, Text, SplitLine, WellFormed, PieceOf, Printed;
    var ps := Pieces(pl, tokens);
    forall i | 0 <= i < |tokens| ensures Text(ps[i]) == tokens[i] && WellFormed(ps[i]) {
      PieceText(pl, tokens[i], TERMINATOR !in tokens[..i + 1]);
      PieceWellFormed(pl, tokens[i], TERMINATOR !in tokens[..i + 1]);
    }
    assert Texts(ps) == tokens;
    RestIsLine(pl, tokens, 0);
    assert tokens[..0] == [] && ps[0..] == ps;
    assert "" + Line(ps) == Line(ps);
    LineRoundTrip(ps);
    assert forall i :: 0 <= i < |tokens| ==> ps[i] == PieceAt(pl, tokens, i);
  }

  /** A quote in a switch name is printed bare and swallowed. */
  lemma {:induction false} QuoteInSwitchNameIsLost()
    ensures SplitLine(ArgumentsString(Windows(true), ["-a\"b"])) == ["-ab"]
  {
    hide SplitLine, Quoted;
    var pl, token := Windows(true), "-a\"b";
    assert token[1] == 'a';
    assert PrefixLength(pl, token) == 1;
    assert '=' !in token;
    FirstIndexUnique(token, '=', |token|);
    assert NameOf(token) == token[..4] == token && ValueOf(token) == "";
    assert PrintToken(pl, token, true) == token;
    assert Rest(pl, [token], 1, true) == "";
    assert ArgumentsString(pl, [token]) == "" + token + "" == token;
    BareQuoteIsLost();
  }

  // ---------- The printed arguments elsewhere ----------

  function JoinedBySpaces(tokens: seq<string>): string {
    if tokens == [] then "" else if |tokens| == 1 then tokens[0] else tokens[0] + " " + JoinedBySpaces(tokens[1..])
  }

  /** It ends in an equals sign, its only one. */
  predicate EndsBare(token: string) {
    token != "" && token[|token| - 1] == '=' && '=' !in token[..|token| - 1]
  }

  /** A switch before the terminator that ends in an equals sign with no value. */
  predicate BareSwitchAt(tokens: seq<string>, i: nat)
    requires i < |tokens|
  {
    TERMINATOR !in tokens[..i + 1] && IsSwitch(Posix, tokens[i]) && EndsBare(tokens[i])
  }

  /** The tokens without such equals signs. */
  function Shortened(tokens: seq<string>): seq<string> {
    seq(|tokens|, i requires 0 <= i < |tokens| =>
      if BareSwitchAt(tokens, i) then tokens[i][..|tokens[i]| - 1] else tokens[i])
  }

  lemma {:induction false} PosixToken(token: string, parse: bool)
    ensures PrintToken(Posix, token, parse)
            == if parse && IsSwitch(Posix, token) && EndsBare(token) then token[..|token| - 1] else token
  {
    if parse && IsSwitch(Posix, token) {
      var i := FirstIndex(token, '=');
      if i < |token| {
        assert token == token[..i] + ("=" + token[i + 1..]);
        assert EndsBare(token) <==> i == |token| - 1 by {
          if EndsBare(token) {
            FirstIndexUnique(token, '=', |token| - 1);
          }
        }
      }
    }
  }

  lemma {:induction false} PosixRest(tokens: seq<string>, i: nat)
    requires i <= |tokens|
    ensures Rest(Posix, tokens, i, TERMINATOR !in tokens[..i])
            == (if 0 < i < |tokens| then " " else "") + JoinedBySpaces(Shortened(tokens)[i..])
    decreases |tokens| - i
  {
    hide PrintToken, BareSwitchAt;
    if i < |tokens| {
      PosixRest(tokens, i + 1);
      assert tokens[..i + 1] == tokens[..i] + [tokens[i]];
      ShortenedToken(tokens, i);
      var ss := Shortened(tokens);
      assert ss[i..][0] == ss[i] && ss[i..][1..] == ss[i + 1..];
      var sep := if i > 0 then " " else "";
      if i + 1 == |tokens| {
        assert sep + ss[i] + "" == sep + ss[i];
      } else {
        Associate(sep, ss[i], " ", JoinedBySpaces(ss[i + 1..]));
        Associate(ss[i], " ", JoinedBySpaces(ss[i + 1..]), "");
        Associate(sep, ss[i], " " + JoinedBySpaces(ss[i + 1..]), "");
      }
    }
  }

  lemma ShortenedToken(tokens: seq<string>, i: nat)
    requires i < |tokens|
    ensures PrintToken(Posix, tokens[i], TERMINATOR !in tokens[..i + 1]) == Shortened(tokens)[i]
  {
    PosixToken(tokens[i], TERMINATOR !in tokens[..i + 1]);
  }

  lemma {:induction false} JoinedLength(a: seq<string>, b: seq<string>)
    requires |a| == |b| && forall i :: 0 <= i < |a| ==> |a[i]| <= |b[i]|
    ensures |JoinedBySpaces(a)| <= |JoinedBySpaces(b)|
    ensures |JoinedBySpaces(a)| == |JoinedBySpaces(b)| ==> forall i :: 0 <= i < |a| ==> |a[i]| == |b[i]|
  {
    if |a| > 1 {
      JoinedLength(a[1..], b[1..]);
      assert forall i :: 0 < i < |a| ==> a[i] == a[1..][i - 1] && b[i] == b[1..][i - 1];
    }
  }

  /**
   On Posix the arguments string is the tokens joined by single spaces, save that a switch before the
   terminator loses an equals sign that ends it; so it is just the tokens exactly if there is no such switch.
   */
  lemma {:induction false} PosixArguments(tokens: seq<string>)
    ensures ArgumentsString(Posix, tokens) == JoinedBySpaces(Shortened(tokens))
    ensures ArgumentsString(Posix, tokens) == JoinedBySpaces(tokens)
            <==> forall i :: 0 <= i < |tokens| ==> !BareSwitchAt(tokens, i)
  {
    hide Rest, BareSwitchAt, JoinedBySpaces;
    var ss := Shortened(tokens);
    PosixRest(tokens, 0);
    assert tokens[..0] == [] && ss[0..] == ss;
    assert "" + JoinedBySpaces(ss) == JoinedBySpaces(ss);
    forall i | 0 <= i < |tokens|
      ensures |ss[i]| <= |tokens[i]| && (|ss[i]| == |tokens[i]| <==> !BareSwitchAt(tokens, i))
    {
      BareIsShorter(tokens, i);
    }
    JoinedLength(ss, tokens);
    if forall i :: 0 <= i < |tokens| ==> !BareSwitchAt(tokens, i) {
      assert ss == tokens;
    } else {
      var i :| 0 <= i < |tokens| && BareSwitchAt(tokens, i);
      assert |ss[i]| < |tokens[i]|;
    }
  }

  lemma BareIsShorter(tokens: seq<string>, i: nat)
    requires i < |tokens|
    ensures var s := Shortened(tokens)[i];
            |s| <= |tokens[i]| && (|s| == |tokens[i]| <==> !BareSwitchAt(tokens, i))
  {
  }

  // ---------- Switches before arguments ----------

  /** The canonical token of a switch item: name lower-cased on Windows, no bare equals sign. */
  function Canonical(pl: Platform, item: string): string {
    SwitchToken(pl, NameOf(item), ValueOf(item))
  }

  function Canonicals(pl: Platform, items: seq<string>): seq<string> {
    seq(|items|, i requires 0 <= i < |items| => Canonical(pl, items[i]))
  }

  /** The items before the terminator and those from it on. */
  function Parsed(items: seq<string>): seq<string> {
    items[..FirstIndex(items, TERMINATOR)]
  }

  function Unparsed(items: seq<string>): seq<string> {
    items[FirstIndex(items, TERMINATOR)..]
  }

  function SwitchItems(pl: Platform, items: seq<string>): seq<string> {
    Filter(item => IsSwitch(pl, item), Parsed(items))
  }

  function ArgItems(pl: Platform, items: seq<string>): seq<string> {
    Filter(item => !IsSwitch(pl, item), Parsed(items)) + Unparsed(items)
  }

  /** The map that remembers, per name, the last of a sequence of switches. */
  function LastWins(switches: map<string, string>, pl: Platform, items: seq<string>): map<string, string>
    decreases |items|
  {
    if items == [] then switches
    else LastWins(switches[SwitchKey(pl, NameOf(items[0])) := ValueOf(items[0])], pl, items[1..])
  }

  lemma {:induction false} AppendUnparsed(pl: Platform, c: Cmd, items: seq<string>)
    ensures AppendItems(pl, c, items, false) == c.(args := c.args + items)
    decreases |items|
  {
    if items != [] {
      AppendUnparsed(pl, c.(args := c.args + [items[0]]), items[1..]);
      assert c.args + [items[0]] + items[1..] == c.args + items;
    } else {
      assert c.args + items == c.args;
    }
  }

  function Partition(pl: Platform, c: Cmd, items: seq<string>): Cmd {
    Cmd(c.program,
        c.switchTokens + Canonicals(pl, SwitchItems(pl, items)),
        c.args + ArgItems(pl, items),
        LastWins(c.switches, pl, SwitchItems(pl, items)))
  }

  lemma {:induction false} PartitionSwitch(pl: Platform, c: Cmd, items: seq<string>)
    requires items != [] && items[0] != TERMINATOR && IsSwitch(pl, items[0])
    ensures Partition(pl, c, items)
            == Partition(pl, AppendSwitch(pl, c, NameOf(items[0]), ValueOf(items[0])), items[1..])
  {
    hide SwitchToken, SwitchKey, IsSwitch, NameOf, ValueOf;
    ParsedStep(items);
    var rest := SwitchItems(pl, items[1..]);
    assert SwitchItems(pl, items) == [items[0]] + rest;
    assert ([items[0]] + rest)[1..] == rest;
    assert Canonicals(pl, [items[0]] + rest) == [Canonical(pl, items[0])] + Canonicals(pl, rest);
    assert c.switchTokens + [Canonical(pl, items[0])] + Canonicals(pl, rest)
        == c.switchTokens + ([Canonical(pl, items[0])] + Canonicals(pl, rest));
  }

  lemma {:induction false} PartitionArg(pl: Platform, c: Cmd, items: seq<string>)
    requires items != [] && items[0] != TERMINATOR && !IsSwitch(pl, items[0])
    ensures Partition(pl, c, items) == Partition(pl, c.(args := c.args + [items[0]]), items[1..])
  {
    hide SwitchToken, SwitchKey, IsSwitch, NameOf, ValueOf, LastWins, Canonicals;
    ParsedStep(items);
    assert SwitchItems(pl, items) == SwitchItems(pl, items[1..]);
    assert ArgItems(pl, items) == [items[0]] + ArgItems(pl, items[1..]);
    assert c.args + [items[0]] + ArgItems(pl, items[1..]) == c.args + ([items[0]] + ArgItems(pl, items[1..]));
  }

  lemma {:induction false} PartitionRest(pl: Platform, c: Cmd, items: seq<string>)
    requires items == [] || items[0] == TERMINATOR
    ensures Partition(pl, c, items) == c.(args := c.args + items)
  {
    assert Parsed(items) == [] && Unparsed(items) == items;
    assert ArgItems(pl, items) == items && SwitchItems(pl, items) == [];
    assert c.switchTokens + Canonicals(pl, []) == c.switchTokens;
  }

  /** Appending is a stable partition: switch items before the terminator, and the rest. */
  lemma {:induction false} AppendPartitions(pl: Platform, c: Cmd, items: seq<string>)
    ensures AppendItems(pl, c, items, true) == Partition(pl, c, items)
    decreases |items|
  {
    hide Partition, IsSwitch, NameOf, ValueOf;
    if items == [] || items[0] == TERMINATOR {
      PartitionRest(pl, c, items);
      if items == [] {
        assert c.args + [] == c.args;
      } else {
        AppendUnparsed(pl, c.(args := c.args + [items[0]]), items[1..]);
        assert c.args + [items[0]] + items[1..] == c.args + items;
      }
    } else if IsSwitch(pl, items[0]) {
      PartitionSwitch(pl, c, items);
      AppendPartitions(pl, AppendSwitch(pl, c, NameOf(items[0]), ValueOf(items[0])), items[1..]);
    } else {
      PartitionArg(pl, c, items);
      AppendPartitions(pl, c.(args := c.args + [items[0]]), items[1..]);
    }
  }

  lemma {:induction false} ParsedStep(items: seq<string>)
    requires items != [] && items[0] != TERMINATOR
    ensures Parsed(items) == [items[0]] + Parsed(items[1..]) && Unparsed(items) == Unparsed(items[1..])
    ensures Parsed(items)[1..] == Parsed(items[1..])
  {
  }

  // ---------- The switch map agrees with the vector ----------

  /** The key and value a token stands for when read again. */
  function Reread(pl: Platform, token: string): Option<(string, string)> {
    if IsSwitch(pl, token) then Some((SwitchKey(pl, NameOf(token)), ValueOf(token))) else None
  }

  /** The name has no equals sign and, its prefix aside, is empty only if there is a value. */
  predicate Regular(pl: Platform, name: string, value: string) {
    '=' !in name && (SwitchKey(pl, name) != "" || value != "")
  }

  lemma {:induction false} LowerFacts(pl: Platform, s: string)
    ensures |Lower(pl, s)| == |s| && Lower(pl, Lower(pl, s)) == Lower(pl, s)
    ensures forall i :: 0 <= i < |s| ==> (Lower(pl, s)[i] == '=' <==> s[i] == '=')
    ensures forall i :: 0 <= i < |s| ==> (IsSpace(pl, Lower(pl, s)[i]) <==> IsSpace(pl, s[i]))
    ensures PrefixLength(pl, Lower(pl, s)) == PrefixLength(pl, s)
  {
  }

  lemma {:induction false} LowerConcat(pl: Platform, a: string, b: string)
    ensures Lower(pl, a + b) == Lower(pl, a) + Lower(pl, b)
  {
  }

  /** A switch token is its full name and, after an equals sign, a nonempty value. */
  function FullName(pl: Platform, name: string): string {
    var lower := Lower(pl, name);
    if PrefixLength(pl, lower) == 0 then "--" + lower else lower
  }

  lemma {:induction false} FullNameFacts(pl: Platform, name: string)
    ensures var full := FullName(pl, name);
            && 0 < PrefixLength(pl, full) <= |full| && full[PrefixLength(pl, full)..] == SwitchKey(pl, name)
            && Lower(pl, full) == full && SwitchKey(pl, full) == SwitchKey(pl, name)
            && ('=' in full <==> '=' in name)
  {
    LowerFacts(pl, name);
    var lower := Lower(pl, name);
    LowerConcat(pl, "--", lower);
    assert Lower(pl, "--") == "--";
    if PrefixLength(pl, lower) == 0 {
      assert ("--" + lower)[2..] == lower;
    }
    var full := FullName(pl, name);
    assert '=' in full <==> '=' in lower;
    assert '=' in lower <==> '=' in name by {
      if '=' in lower {
        var i :| 0 <= i < |lower| && lower[i] == '=';
        assert name[i] == '=';
      }
      if '=' in name {
        var i :| 0 <= i < |name| && name[i] == '=';
        assert lower[i] == '=';
      }
    }
  }

  lemma {:induction false} SplitAtEquals(full: string, value: string)
    requires '=' !in full
    ensures var token := full + (if value == "" then "" else "=" + value);
            NameOf(token) == full && ValueOf(token) == value
  {
    var token := full + (if value == "" then "" else "=" + value);
    if value == "" {
      assert token == full;
    } else {
      assert token == full + ['='] + value;
      FirstIndexIn(full, '=', value);
    }
  }

  lemma {:induction false} PrefixOfToken(pl: Platform, full: string, value: string)
    requires 0 < PrefixLength(pl, full) <= |full|
    ensures PrefixLength(pl, full + (if value == "" then "" else "=" + value)) == PrefixLength(pl, full)
  {
    var token := full + (if value == "" then "" else "=" + value);
    assert full <= token;
    if |full| == 1 && value != "" {
      assert token[1] == '=';
    }
  }

  /** A switch token read again gives the key and value it was made from exactly if they are regular. */
  lemma {:induction false} TokenRereads(pl: Platform, name: string, value: string)
    ensures Reread(pl, SwitchToken(pl, name, value)) == Some((SwitchKey(pl, name), value))
            <==> Regular(pl, name, value)
  {
    hide Lower;
    var full, token := FullName(pl, name), SwitchToken(pl, name, value);
    FullNameFacts(pl, name);
    PrefixOfToken(pl, full, value);
    assert token == full + (if value == "" then "" else "=" + value);
    if '=' !in name {
      SplitAtEquals(full, value);
    } else {
      KeyLosesEquals(pl, name, NameOf(token));
    }
  }

  lemma {:induction false} KeyLosesEquals(pl: Platform, name: string, read: string)
    requires '=' in name && '=' !in read
    ensures SwitchKey(pl, read) != SwitchKey(pl, name)
  {
    LowerFacts(pl, name);
    LowerFacts(pl, read);
    var i :| 0 <= i < |name| && name[i] == '=';
    var n := PrefixLength(pl, name);
    assert i >= n;
    assert SwitchKey(pl, name)[i - n] == '=';
    var k, m := Lower(pl, read), PrefixLength(pl, read);
    forall j | 0 <= j < |SwitchKey(pl, read)| ensures SwitchKey(pl, read)[j] != '=' {
      assert k[m + j] == SwitchKey(pl, read)[j];
    }
  }

  // ---------- Looking a switch up ----------

  /** The same letter, in either case. */
  predicate SameLetter(c: char, d: char) {
    || c == d
    || ('A' <= c <= 'Z' && d as int == c as int + 32)
    || ('A' <= d <= 'Z' && c as int == d as int + 32)
  }

  /** Equal names; on Windows up to the case of ASCII letters. */
  predicate SameName(pl: Platform, a: string, b: string) {
    if pl == Posix then a == b
    else |a| == |b| && forall i :: 0 <= i < |a| ==> SameLetter(a[i], b[i])
  }

  function BareName(pl: Platform, name: string): string {
    name[PrefixLength(pl, name)..]
  }

  lemma {:induction false} LowerExact(pl: Platform, a: string, b: string)
    ensures Lower(pl, a) == Lower(pl, b) <==> SameName(pl, a, b)
  {
    if pl != Posix && |a| == |b| {
      forall i | 0 <= i < |a|
        ensures LowerChar(a[i]) == LowerChar(b[i]) <==> SameLetter(a[i], b[i])
      {
        LowerCharExact(a[i], b[i]);
      }
      forall i | 0 <= i < |a|
        ensures Lower(pl, a)[i] == LowerChar(a[i]) && Lower(pl, b)[i] == LowerChar(b[i])
      {
      }
      if Lower(pl, a) != Lower(pl, b) {
        var i :| 0 <= i < |a| && Lower(pl, a)[i] != Lower(pl, b)[i];
        assert !SameLetter(a[i], b[i]);
      }
    } else if pl != Posix {
      assert |Lower(pl, a)| == |a| && |Lower(pl, b)| == |b|;
    }
  }

  lemma LowerCharExact(c: char, d: char)
    ensures LowerChar(c) == LowerChar(d) <==> SameLetter(c, d)
  {
  }

  lemma {:induction false} KeyOfBareName(pl: Platform, name: string)
    ensures SwitchKey(pl, name) == Lower(pl, BareName(pl, name))
  {
    LowerFacts(pl, name);
    var n := PrefixLength(pl, name);
    assert SwitchKey(pl, name) == Lower(pl, name)[n..];
    assert name == name[..n] + name[n..];
    LowerConcat(pl, name[..n], name[n..]);
    assert |Lower(pl, name[..n])| == n;
  }

  /** An appended switch is found under its name without prefix, on Windows in any case, and under no other. */
  lemma {:induction false} SwitchIsFound(pl: Platform, c: Cmd, name: string, value: string, asked: string)
    ensures Lookup(pl, AppendSwitch(pl, c, name, value), asked)
            == if SameName(pl, asked, BareName(pl, name)) then Some(value) else Lookup(pl, c, asked)
  {
    hide Lower, SwitchToken, SwitchKey, SameName;
    KeyOfBareName(pl, name);
    LowerExact(pl, asked, BareName(pl, name));
  }

  /** The token of a switch: its own prefix or else two hyphens, the key, and the value if there is one. */
  lemma {:induction false} TokenText(pl: Platform, name: string, value: string)
    ensures var prefix := if PrefixLength(pl, name) == 0 then "--" else name[..PrefixLength(pl, name)];
            SwitchToken(pl, name, value) == prefix + SwitchKey(pl, name) + (if value == "" then "" else "=" + value)
  {
    hide SwitchKey;
    LowerFacts(pl, name);
    KeyOfBareName(pl, name);
    var n := PrefixLength(pl, name);
    assert name == name[..n] + BareName(pl, name);
    LowerConcat(pl, name[..n], BareName(pl, name));
    assert Lower(pl, name[..n]) == name[..n];
    if n == 0 {
      assert BareName(pl, name) == name;
    }
  }

  /** The map obtained by reading the switch tokens one after another. */
  function MapOf(pl: Platform, tokens: seq<string>): map<string, string> {
    if tokens == [] then map[]
    else
      var m, last := MapOf(pl, tokens[..|tokens| - 1]), Reread(pl, tokens[|tokens| - 1]);
      if last == None then m else m[last.value.0 := last.value.1]
  }

  datatype Op =
    | SetArgv(argv: seq<string>)
    | PutSwitch(name: string, value: string)
    | PutArg(value: string)
    | PutArguments(argv: seq<string>)

  function ApplyOp(pl: Platform, c: Cmd, op: Op): Cmd {
    match op
    case SetArgv(argv) => InitFrom(pl, argv)
    case PutSwitch(name, value) => AppendSwitch(pl, c, name, value)
    case PutArg(value) => c.(args := c.args + [value])
    case PutArguments(argv) => AppendItems(pl, c, Items(pl, argv), true)
  }

  function ApplyOps(pl: Platform, c: Cmd, ops: seq<Op>): Cmd {
    if ops == [] then c else ApplyOp(pl, ApplyOps(pl, c, ops[..|ops| - 1]), ops[|ops| - 1])
  }

  /** A switch as it was asked for. */
  datatype Put = Put(name: string, value: string)

  function PutsOf(items: seq<string>): seq<Put> {
    seq(|items|, i requires 0 <= i < |items| => Put(NameOf(items[i]), ValueOf(items[i])))
  }

  /** The switches appended since the command line was last initialised. */
  function Puts(pl: Platform, ops: seq<Op>): seq<Put> {
    if ops == [] then []
    else
      var before := Puts(pl, ops[..|ops| - 1]);
      match ops[|ops| - 1]
      case SetArgv(argv) => PutsOf(SwitchItems(pl, Items(pl, argv)))
      case PutSwitch(name, value) => before + [Put(name, value)]
      case PutArg(_) => before
      case PutArguments(argv) => before + PutsOf(SwitchItems(pl, Items(pl, argv)))
  }

  function Tokens(pl: Platform, puts: seq<Put>): seq<string> {
    seq(|puts|, i requires 0 <= i < |puts| => SwitchToken(pl, puts[i].name, puts[i].value))
  }

  /** The map after these switches. */
  function Fold(pl: Platform, puts: seq<Put>): map<string, string> {
    if puts == [] then map[]
    else
      var last := puts[|puts| - 1];
      Fold(pl, puts[..|puts| - 1])[SwitchKey(pl, last.name) := last.value]
  }

  predicate NoEquals(puts: seq<Put>) {
    forall i :: 0 <= i < |puts| ==> '=' !in puts[i].name
  }

  /** The last switch with an empty name, if there is one, has a value. */
  predicate BlanksEnd(pl: Platform, puts: seq<Put>) {
    puts == [] ||
    var last := puts[|puts| - 1];
    if SwitchKey(pl, last.name) == "" then last.value != "" else BlanksEnd(pl, puts[..|puts| - 1])
  }

  lemma {:induction false} FoldItems(pl: Platform, puts: seq<Put>, items: seq<string>)
    ensures LastWins(Fold(pl, puts), pl, items) == Fold(pl, puts + PutsOf(items))
    ensures Tokens(pl, puts) + Canonicals(pl, items) == Tokens(pl, puts + PutsOf(items))
    decreases |items|
  {
    hide SwitchToken, SwitchKey, NameOf, ValueOf;
    if items == [] {
      assert puts + PutsOf(items) == puts;
    } else {
      var put := Put(NameOf(items[0]), ValueOf(items[0]));
      assert (puts + [put])[..|puts|] == puts;
      FoldItems(pl, puts + [put], items[1..]);
      assert puts + [put] + PutsOf(items[1..]) == puts + PutsOf(items);
    }
  }

  ghost predicate Holds(pl: Platform, c: Cmd, puts: seq<Put>) {
    c.switchTokens == Tokens(pl, puts) && c.switches == Fold(pl, puts)
  }

  lemma {:induction false} AppendHolds(pl: Platform, c: Cmd, items: seq<string>, puts: seq<Put>)
    requires Holds(pl, c, puts)
    ensures Holds(pl, AppendItems(pl, c, items, true), puts + PutsOf(SwitchItems(pl, items)))
  {
    hide AppendItems, SwitchItems, Tokens, Fold, LastWins, Canonicals;
    AppendPartitions(pl, c, items);
    FoldItems(pl, puts, SwitchItems(pl, items));
  }

  lemma {:induction false} SwitchHolds(pl: Platform, c: Cmd, name: string, value: string, puts: seq<Put>)
    requires Holds(pl, c, puts)
    ensures Holds(pl, AppendSwitch(pl, c, name, value), puts + [Put(name, value)])
  {
    hide SwitchToken, SwitchKey;
    assert (puts + [Put(name, value)])[..|puts|] == puts;
  }

  /** In every run the tokens and the map are those of the switches appended since the last initialisation. */
  lemma {:induction false} RunPuts(pl: Platform, ops: seq<Op>)
    ensures Holds(pl, ApplyOps(pl, Cmd("", [], [], map[]), ops), Puts(pl, ops))
  {
    hide AppendItems, AppendSwitch, SwitchItems, Tokens, Fold, PutsOf, Items;
    if ops == [] {
      NothingHolds(pl, "");
    } else {
      var c, before := ApplyOps(pl, Cmd("", [], [], map[]), ops[..|ops| - 1]), Puts(pl, ops[..|ops| - 1]);
      RunPuts(pl, ops[..|ops| - 1]);
      match ops[|ops| - 1] {
        case SetArgv(argv) =>
          var program := if argv == [] then "" else Trim(pl, argv[0]);
          NothingHolds(pl, program);
          AppendHolds(pl, Cmd(program, [], [], map[]), Items(pl, argv), []);
          assert [] + PutsOf(SwitchItems(pl, Items(pl, argv))) == PutsOf(SwitchItems(pl, Items(pl, argv)));
        case PutSwitch(name, value) => SwitchHolds(pl, c, name, value, before);
        case PutArg(_) =>
        case PutArguments(argv) => AppendHolds(pl, c, Items(pl, argv), before);
      }
    }
  }

  lemma NothingHolds(pl: Platform, program: string)
    ensures Holds(pl, Cmd(program, [], [], map[]), [])
  {
  }

  /** A bare prefix is no switch when it is read again. */
  lemma {:induction false} BareToken(pl: Platform, name: string)
    requires SwitchKey(pl, name) == ""
    ensures Reread(pl, SwitchToken(pl, name, "")) == None
  {
    hide Lower;
    var full := FullName(pl, name);
    FullNameFacts(pl, name);
    assert SwitchToken(pl, name, "") == full;
    assert |full[PrefixLength(pl, full)..]| == 0;
  }

  lemma MapOfStep(pl: Platform, puts: seq<Put>)
    requires puts != []
    ensures var front, last := puts[..|puts| - 1], puts[|puts| - 1];
            var read := Reread(pl, SwitchToken(pl, last.name, last.value));
            MapOf(pl, Tokens(pl, puts)) == if read == None then MapOf(pl, Tokens(pl, front))
                                           else MapOf(pl, Tokens(pl, front))[read.value.0 := read.value.1]
  {
    hide Reread, SwitchToken;
    assert Tokens(pl, puts)[..|puts| - 1] == Tokens(pl, puts[..|puts| - 1]);
  }

  /** Two maps that differ at most at the empty key. */
  ghost predicate Alike(m: map<string, string>, n: map<string, string>) {
    forall k :: k != "" ==> (k in m <==> k in n) && (k in m ==> m[k] == n[k])
  }

  lemma {:induction false} FoldAndMap(pl: Platform, puts: seq<Put>)
    requires NoEquals(puts)
    ensures var f, m := Fold(pl, puts), MapOf(pl, Tokens(pl, puts));
            && Alike(f, m) && ("" in m ==> m[""] != "")
            && (if BlanksEnd(pl, puts) then f == m else "" in f && f[""] == "")
  {
    hide Reread, SwitchToken, SwitchKey, Tokens, MapOf;
    if puts == [] {
      NoTokens(pl);
    } else {
      var front, last := puts[..|puts| - 1], puts[|puts| - 1];
      FoldAndMap(pl, front);
      MapOfStep(pl, puts);
      TokenRereads(pl, last.name, last.value);
      if SwitchKey(pl, last.name) == "" {
        if last.value == "" {
          BareToken(pl, last.name);
        } else {
          assert forall k :: k in Fold(pl, puts) <==> k in MapOf(pl, Tokens(pl, puts));
        }
      }
    }
  }

  lemma NoTokens(pl: Platform)
    ensures MapOf(pl, Tokens(pl, [])) == map[]
  {
  }

  /** Keys read from tokens have no equals sign; the key of a name with one has. */
  lemma {:induction false} EqualsInKeys(pl: Platform, puts: seq<Put>)
    ensures forall k :: k in MapOf(pl, Tokens(pl, puts)) ==> '=' !in k
    ensures NoEquals(puts) || exists k :: k in Fold(pl, puts) && '=' in k
  {
    hide SwitchToken, SwitchKey, Tokens, MapOf, NameOf, ValueOf;
    if puts == [] {
      NoTokens(pl);
    } else {
      var front, last := puts[..|puts| - 1], puts[|puts| - 1];
      var token := SwitchToken(pl, last.name, last.value);
      EqualsInKeys(pl, front);
      MapOfStep(pl, puts);
      NameHasNoEquals(token);
      KeyEquals(pl, NameOf(token));
      KeyEquals(pl, last.name);
      if '=' in last.name {
        assert SwitchKey(pl, last.name) in Fold(pl, puts);
      } else if !NoEquals(front) {
        var k :| k in Fold(pl, front) && '=' in k;
        assert k in Fold(pl, puts);
      }
    }
  }

  lemma NameHasNoEquals(token: string)
    ensures '=' !in NameOf(token)
  {
  }

  lemma {:induction false} KeyEquals(pl: Platform, name: string)
    ensures '=' in SwitchKey(pl, name) <==> '=' in name
  {
    LowerFacts(pl, name);
    var n, lower := PrefixLength(pl, name), Lower(pl, name);
    if i :| 0 <= i < |name| && name[i] == '=' {
      assert i >= n;
      assert SwitchKey(pl, name)[i - n] == lower[i];
    }
    if j :| 0 <= j < |SwitchKey(pl, name)| && SwitchKey(pl, name)[j] == '=' {
      assert lower[n + j] == '=';
      assert name[n + j] == '=';
    }
  }

  /**
   After any run of initialisations and appends the map is what the switch tokens of the vector say, if
   and only if since the last initialisation no switch was appended under a name with an equals sign and
   the last one under an empty name, if any, had a value.
   */
  lemma {:induction false} SwitchMapAgrees(pl: Platform, ops: seq<Op>)
    ensures var c := ApplyOps(pl, Cmd("", [], [], map[]), ops);
            c.switches == MapOf(pl, c.switchTokens) <==> NoEquals(Puts(pl, ops)) && BlanksEnd(pl, Puts(pl, ops))
  {
    hide ApplyOps, Puts, Fold, MapOf, Tokens, NoEquals, BlanksEnd;
    var puts := Puts(pl, ops);
    RunPuts(pl, ops);
    EqualsInKeys(pl, puts);
    if NoEquals(puts) {
      FoldAndMap(pl, puts);
    }
  }

  // ---------- Initialising again from one's own vector ----------

  lemma {:induction false} TrimLeftFacts(pl: Platform, s: string)
    ensures var t := TrimLeft(pl, s);
            && |t| <= |s| && (|t| == |s| ==> t == s) && (t != "" ==> !IsSpace(pl, t[0]))
            && (s != "" && !IsSpace(pl, s[0]) ==> t == s)
  {
    hide IsSpace;
    if s != "" && IsSpace(pl, s[0]) {
      TrimLeftFacts(pl, s[1..]);
    }
  }

  lemma {:induction false} TrimRightFacts(pl: Platform, s: string)
    ensures var t := TrimRight(pl, s);
            && t <= s && (t != "" ==> !IsSpace(pl, t[|t| - 1]))
            && (s != "" && !IsSpace(pl, s[|s| - 1]) ==> t == s)
  {
    hide IsSpace;
    if s != "" && IsSpace(pl, s[|s| - 1]) {
      TrimRightFacts(pl, s[..|s| - 1]);
    }
  }

  lemma {:induction false} TrimFacts(pl: Platform, s: string)
    ensures Trimmed(pl, Trim(pl, s)) && (Trimmed(pl, s) ==> Trim(pl, s) == s)
    ensures |Trim(pl, s)| <= |s| && (|Trim(pl, s)| == |s| ==> Trim(pl, s) == s)
  {
    hide IsSpace;
    TrimLeftFacts(pl, s);
    TrimRightFacts(pl, TrimLeft(pl, s));
  }

  /** The white space that is trimmed. */
  function Spaces(pl: Platform): set<char> {
    {'\t', '\n', '\U{000B}', '\U{000C}', '\r', ' '}
    + if pl == Posix then {}
      else {'\U{0085}', '\U{00A0}', '\U{1680}', '\U{2000}', '\U{2001}', '\U{2002}', '\U{2003}', '\U{2004}',
            '\U{2005}', '\U{2006}', '\U{2007}', '\U{2008}', '\U{2009}', '\U{200A}', '\U{2028}', '\U{2029}',
            '\U{202F}', '\U{205F}', '\U{3000}'}
  }

  lemma SpacesExact(pl: Platform, c: char)
    ensures IsSpace(pl, c) <==> c in Spaces(pl)
  {
  }

  predicate AllSpaces(pl: Platform, s: string) {
    forall i :: 0 <= i < |s| ==> s[i] in Spaces(pl)
  }

  /** `t` is `s` between two stretches of white space. */
  ghost predicate PaddedTo(pl: Platform, s: string, t: string) {
    exists l, r :: AllSpaces(pl, l) && AllSpaces(pl, r) && t == l + s + r
  }

  predicate NoSpaceAtEnds(pl: Platform, s: string) {
    s == "" || (s[0] !in Spaces(pl) && s[|s| - 1] !in Spaces(pl))
  }

  lemma {:induction false} TrimLeftSplits(pl: Platform, s: string) returns (l: string)
    ensures AllSpaces(pl, l) && s == l + TrimLeft(pl, s)
  {
    hide IsSpace, Spaces;
    if s != "" && IsSpace(pl, s[0]) {
      SpacesExact(pl, s[0]);
      l := TrimLeftSplits(pl, s[1..]);
      l := [s[0]] + l;
      assert s == [s[0]] + s[1..];
    } else {
      l := "";
    }
  }

  lemma {:induction false} TrimRightSplits(pl: Platform, s: string) returns (r: string)
    ensures AllSpaces(pl, r) && s == TrimRight(pl, s) + r
  {
    hide IsSpace, Spaces;
    if s != "" && IsSpace(pl, s[|s| - 1]) {
      SpacesExact(pl, s[|s| - 1]);
      r := TrimRightSplits(pl, s[..|s| - 1]);
      r := r + [s[|s| - 1]];
      assert s == s[..|s| - 1] + [s[|s| - 1]];
    } else {
      r := "";
    }
  }

  lemma {:induction false} TrimLeftOf(pl: Platform, l: string, s: string)
    requires AllSpaces(pl, l) && (s == "" || s[0] !in Spaces(pl))
    ensures TrimLeft(pl, l + s) == s
  {
    hide IsSpace, Spaces;
    if l != "" {
      SpacesExact(pl, l[0]);
      assert (l + s)[1..] == l[1..] + s;
      TrimLeftOf(pl, l[1..], s);
    } else {
      assert l + s == s;
      if s != "" {
        SpacesExact(pl, s[0]);
      }
    }
  }

  lemma {:induction false} TrimLeftOfSpaces(pl: Platform, s: string)
    requires AllSpaces(pl, s)
    ensures TrimLeft(pl, s) == ""
  {
    TrimLeftOf(pl, s, "");
    assert s + "" == s;
  }

  lemma {:induction false} TrimRightOf(pl: Platform, s: string, r: string)
    requires AllSpaces(pl, r) && (s == "" || s[|s| - 1] !in Spaces(pl))
    ensures TrimRight(pl, s + r) == s
  {
    hide IsSpace, Spaces;
    if r != "" {
      SpacesExact(pl, r[|r| - 1]);
      assert (s + r)[..|s + r| - 1] == s + r[..|r| - 1];
      TrimRightOf(pl, s, r[..|r| - 1]);
    } else {
      assert s + r == s;
      if s != "" {
        SpacesExact(pl, s[|s| - 1]);
      }
    }
  }

  /** Trimming finds the one string without white space at its ends that is padded with it to `s`. */
  lemma {:induction false} TrimExact(pl: Platform, s: string, t: string)
    ensures Trim(pl, s) == t <==> NoSpaceAtEnds(pl, t) && PaddedTo(pl, t, s)
  {
    hide IsSpace, Spaces, TrimLeft, TrimRight, AllSpaces;
    TrimFacts(pl, s);
    TrimmedEnds(pl, Trim(pl, s));
    var l := TrimLeftSplits(pl, s);
    var r := TrimRightSplits(pl, TrimLeft(pl, s));
    Associate(l, Trim(pl, s), r, "");
    assert s == l + Trim(pl, s) + r;
    if NoSpaceAtEnds(pl, t) && PaddedTo(pl, t, s) {
      var l, r :| AllSpaces(pl, l) && AllSpaces(pl, r) && s == l + t + r;
      TrimOfPadded(pl, l, t, r);
    }
  }

  lemma TrimmedEnds(pl: Platform, s: string)
    requires Trimmed(pl, s)
    ensures NoSpaceAtEnds(pl, s)
  {
    hide IsSpace, Spaces;
    if s != "" {
      SpacesExact(pl, s[0]);
      SpacesExact(pl, s[|s| - 1]);
    }
  }

  lemma {:induction false} TrimOfPadded(pl: Platform, l: string, t: string, r: string)
    requires AllSpaces(pl, l) && AllSpaces(pl, r) && NoSpaceAtEnds(pl, t)
    ensures Trim(pl, l + t + r) == t
  {
    hide IsSpace, Spaces, TrimLeft, TrimRight;
    if t == "" {
      assert AllSpaces(pl, l + t + r);
      TrimLeftOfSpaces(pl, l + t + r);
      assert "" + "" == "";
      TrimRightOf(pl, "", "");
    } else {
      Associate(l, t, r, "");
      TrimLeftOf(pl, l, t + r);
      TrimRightOf(pl, t, r);
    }
  }

  /** White space around program and arguments makes no difference. */
  lemma {:induction false} PaddingIsIgnored(pl: Platform, argv: seq<string>, padded: seq<string>)
    requires |argv| == |padded| && forall i :: 0 <= i < |argv| ==> PaddedTo(pl, argv[i], padded[i])
    ensures InitFrom(pl, padded) == InitFrom(pl, argv)
  {
    hide Trim, PaddedTo, AppendItems;
    forall i | 0 <= i < |argv|
      ensures Trim(pl, padded[i]) == Trim(pl, argv[i])
    {
      PaddingJoins(pl, argv[i], padded[i]);
    }
    if argv != [] {
      assert Items(pl, padded) == Items(pl, argv);
    }
  }

  lemma {:induction false} PaddingJoins(pl: Platform, s: string, padded: string)
    requires PaddedTo(pl, s, padded)
    ensures Trim(pl, padded) == Trim(pl, s)
  {
    hide Trim, Spaces, NoSpaceAtEnds;
    var t := Trim(pl, s);
    TrimExact(pl, s, t);
    var l, r :| AllSpaces(pl, l) && AllSpaces(pl, r) && s == l + t + r;
    var l', r' :| AllSpaces(pl, l') && AllSpaces(pl, r') && padded == l' + s + r';
    assert AllSpaces(pl, l' + l) && AllSpaces(pl, r + r');
    assert padded == (l' + l) + t + (r + r');
    TrimExact(pl, padded, t);
  }

  /** From an already trimmed vector: the program, then a stable partition of the other tokens. */
  lemma {:induction false} InitReads(pl: Platform, argv: seq<string>)
    requires argv != [] && forall i :: 0 <= i < |argv| ==> NoSpaceAtEnds(pl, argv[i])
    ensures InitFrom(pl, argv) == Partition(pl, Cmd(argv[0], [], [], map[]), argv[1..])
  {
    hide Trim, NoSpaceAtEnds, AppendItems, Partition;
    forall i | 0 <= i < |argv|
      ensures Trim(pl, argv[i]) == argv[i]
    {
      TrimOfPadded(pl, "", argv[i], "");
      assert "" + argv[i] + "" == argv[i];
    }
    assert Items(pl, argv) == argv[1..];
    AppendPartitions(pl, Cmd(argv[0], [], [], map[]), argv[1..]);
  }

  /** A switch item with a value, or with a name that is not a bare prefix and ends in no space. */
  predicate Stable(pl: Platform, item: string) {
    var name := NameOf(item);
    ValueOf(item) != "" || (SwitchKey(pl, name) != "" && name != "" && !IsSpace(pl, name[|name| - 1]))
  }

  /** A trimmed switch item: its name carries the prefix, its token is the lower-cased item. */
  lemma {:induction false} SwitchItemFacts(pl: Platform, item: string)
    requires IsSwitch(pl, item)
    ensures var name, value := NameOf(item), ValueOf(item);
            && '=' !in name && name != "" && name[0] == item[0]
            && (value != "" ==> value[|value| - 1] == item[|item| - 1])
            && PrefixLength(pl, name) == PrefixLength(pl, item)
            && FullName(pl, name) == Lower(pl, name)
            && Canonical(pl, item) == Lower(pl, name) + (if value == "" then "" else "=" + value)
  {
    var i := FirstIndex(item, '=');
    if i < |item| {
      assert item == item[..i] + ['='] + item[i + 1..];
    }
    assert i > 0;
    assert PrefixLength(pl, item) == 2 ==> i >= 2 by {
      assert item[1] == '-' || PrefixLength(pl, item) != 2;
    }
    LowerFacts(pl, NameOf(item));
  }

  lemma {:induction false} StableTrims(pl: Platform, item: string)
    requires IsSwitch(pl, item) && Trimmed(pl, item) && Stable(pl, item)
    ensures Trim(pl, Canonical(pl, item)) == Canonical(pl, item)
  {
    hide Trim, IsSpace, Lower, IsSwitch, SwitchToken;
    var name, value, token := NameOf(item), ValueOf(item), Canonical(pl, item);
    SwitchItemFacts(pl, item);
    LowerFacts(pl, name);
    assert |Lower(pl, name)| == |name|;
    assert token[0] == Lower(pl, name)[0];
    assert token[|token| - 1] == if value == "" then Lower(pl, name)[|name| - 1] else value[|value| - 1];
    assert Trimmed(pl, token);
    TrimFacts(pl, token);
  }

  /** The token of a stable switch item reads as itself when the vector is parsed again. */
  lemma {:induction false} StableToken(pl: Platform, item: string)
    requires IsSwitch(pl, item) && Trimmed(pl, item) && Stable(pl, item)
    ensures var token := Canonical(pl, item);
            && Trim(pl, token) == token && token != TERMINATOR && IsSwitch(pl, token)
            && Canonical(pl, token) == token
            && SwitchKey(pl, NameOf(token)) == SwitchKey(pl, NameOf(item)) && ValueOf(token) == ValueOf(item)
  {
    hide Trim, IsSpace, Lower, Trimmed;
    var name, value := NameOf(item), ValueOf(item);
    var full := FullName(pl, name);
    StableTrims(pl, item);
    SwitchItemFacts(pl, item);
    FullNameFacts(pl, name);
    SplitAtEquals(full, value);
    PrefixOfToken(pl, full, value);
    LowerFacts(pl, name);
    assert |full| == |name|;
  }

  /** The token of any other switch item is no switch any more, or not the same one. */
  lemma {:induction false} UnstableToken(pl: Platform, item: string)
    requires IsSwitch(pl, item) && !Stable(pl, item)
    ensures var token := Canonical(pl, item);
            !(IsSwitch(pl, Trim(pl, token)) && Canonical(pl, Trim(pl, token)) == token)
  {
    hide Trim, IsSpace, Lower;
    var name, token := NameOf(item), Canonical(pl, item);
    SwitchItemFacts(pl, item);
    FullNameFacts(pl, name);
    LowerFacts(pl, name);
    TrimFacts(pl, token);
    assert token + "" == token;
    var again := Trim(pl, token);
    if IsSwitch(pl, again) && Canonical(pl, again) == token {
      CanonicalLength(pl, again);
    }
  }

  lemma {:induction false} CanonicalLength(pl: Platform, item: string)
    requires IsSwitch(pl, item)
    ensures |Canonical(pl, item)| <= |item|
  {
    SwitchItemFacts(pl, item);
    LowerFacts(pl, NameOf(item));
  }

  /** The arguments collected from items are again no switches up to their terminator. */
  lemma {:induction false} ArgsParseAsArgs(pl: Platform, items: seq<string>, tokens: seq<string>)
    requires TERMINATOR !in tokens
    ensures Parsed(tokens + ArgItems(pl, items)) == tokens + Filter(item => !IsSwitch(pl, item), Parsed(items))
    ensures Unparsed(tokens + ArgItems(pl, items)) == Unparsed(items)
  {
    var plain := Filter(item => !IsSwitch(pl, item), Parsed(items));
    var args := ArgItems(pl, items);
    FilterMembers(item => !IsSwitch(pl, item), Parsed(items), TERMINATOR);
    assert args == plain + Unparsed(items);
    var all := tokens + args;
    assert all == (tokens + plain) + Unparsed(items);
    if Unparsed(items) != [] {
      FirstIndexIn(tokens + plain, TERMINATOR, Unparsed(items)[1..]);
      assert all == (tokens + plain) + [TERMINATOR] + Unparsed(items)[1..];
    } else {
      assert TERMINATOR !in all;
    }
  }

  lemma {:induction false} NoSwitchAmong(pl: Platform, items: seq<string>)
    ensures var plain := Filter(item => !IsSwitch(pl, item), items);
            && Filter(item => IsSwitch(pl, item), plain) == []
            && Filter(item => !IsSwitch(pl, item), plain) == plain
  {
    var plain := Filter(item => !IsSwitch(pl, item), items);
    forall x | x in plain ensures !IsSwitch(pl, x) {
      FilterMembers(item => !IsSwitch(pl, item), items, x);
    }
    FilterNone(item => IsSwitch(pl, item), plain);
    FilterLength(item => !IsSwitch(pl, item), plain);
  }

  /** Parsing tokens again, followed by the arguments collected before. */
  lemma {:induction false} ReparseTokens(pl: Platform, items: seq<string>, tokens: seq<string>)
    requires TERMINATOR !in tokens
    ensures SwitchItems(pl, tokens + ArgItems(pl, items)) == Filter(item => IsSwitch(pl, item), tokens)
    ensures (forall t :: t in tokens ==> IsSwitch(pl, t))
            ==> ArgItems(pl, tokens + ArgItems(pl, items)) == ArgItems(pl, items)
  {
    var plain := Filter(item => !IsSwitch(pl, item), Parsed(items));
    ArgsParseAsArgs(pl, items, tokens);
    NoSwitchAmong(pl, Parsed(items));
    FilterConcat(item => IsSwitch(pl, item), tokens, plain);
    FilterConcat(item => !IsSwitch(pl, item), tokens, plain);
    assert Filter(item => IsSwitch(pl, item), tokens) + [] == Filter(item => IsSwitch(pl, item), tokens);
    if forall t :: t in tokens ==> IsSwitch(pl, t) {
      FilterNone(item => !IsSwitch(pl, item), tokens);
      assert [] + plain == plain;
    }
  }

  lemma {:induction false} ItemsAreTrimmed(pl: Platform, argv: seq<string>)
    ensures forall x :: x in Items(pl, argv) ==> Trimmed(pl, x)
    ensures forall x :: x in SwitchItems(pl, Items(pl, argv)) ==> Trimmed(pl, x) && IsSwitch(pl, x)
    ensures forall x :: x in ArgItems(pl, Items(pl, argv)) ==> Trimmed(pl, x)
  {
    hide Trimmed, Trim, IsSwitch;
    var items := Items(pl, argv);
    forall x | x in items ensures Trimmed(pl, x) {
      var i :| 0 <= i < |items| && items[i] == x;
      TrimFacts(pl, argv[1..][i]);
    }
    forall x | x in Parsed(items) || x in Unparsed(items) ensures x in items {
    }
    forall x | x in SwitchItems(pl, items) ensures Trimmed(pl, x) && IsSwitch(pl, x) {
      FilterMembers(item => IsSwitch(pl, item), Parsed(items), x);
    }
    forall x | x in ArgItems(pl, items) ensures Trimmed(pl, x) {
      FilterMembers(item => !IsSwitch(pl, item), Parsed(items), x);
    }
  }

  /** The items seen when a command line is initialised from its own vector. */
  lemma {:induction false} OwnItems(pl: Platform, c: Cmd)
    requires forall x :: x in c.args ==> Trimmed(pl, x)
    ensures Items(pl, Argv(c)) == TrimAll(pl, c.switchTokens) + c.args
  {
    hide Trim, Trimmed;
    assert Argv(c)[1..] == c.switchTokens + c.args;
    forall i | 0 <= i < |c.args| ensures Trim(pl, c.args[i]) == c.args[i] {
      TrimFacts(pl, c.args[i]);
    }
  }

  lemma {:induction false} LastWinsSame(m: map<string, string>, pl: Platform, a: seq<string>, b: seq<string>)
    requires |a| == |b|
    requires forall i :: 0 <= i < |a| ==> SwitchKey(pl, NameOf(a[i])) == SwitchKey(pl, NameOf(b[i]))
    requires forall i :: 0 <= i < |a| ==> ValueOf(a[i]) == ValueOf(b[i])
    ensures LastWins(m, pl, a) == LastWins(m, pl, b)
    decreases |a|
  {
    hide SwitchKey, NameOf, ValueOf;
    if a != [] {
      LastWinsSame(m[SwitchKey(pl, NameOf(a[0])) := ValueOf(a[0])], pl, a[1..], b[1..]);
    }
  }

  lemma {:induction false} StableTokens(pl: Platform, sw: seq<string>, args: seq<string>, items: seq<string>)
    requires forall x :: x in sw ==> IsSwitch(pl, x) && Trimmed(pl, x) && Stable(pl, x)
    requires args == ArgItems(pl, items)
    ensures var toks := Canonicals(pl, sw);
            && TrimAll(pl, toks) == toks && SwitchItems(pl, toks + args) == toks && ArgItems(pl, toks + args) == args
            && Canonicals(pl, toks) == toks && LastWins(map[], pl, toks) == LastWins(map[], pl, sw)
  {
    hide Trim, Trimmed, Stable, IsSwitch, Canonical, SwitchKey, NameOf, ValueOf, LastWins;
    var toks := Canonicals(pl, sw);
    forall i | 0 <= i < |sw|
      ensures Trim(pl, toks[i]) == toks[i] && toks[i] != TERMINATOR && IsSwitch(pl, toks[i])
           && Canonical(pl, toks[i]) == toks[i]
           && SwitchKey(pl, NameOf(toks[i])) == SwitchKey(pl, NameOf(sw[i])) && ValueOf(toks[i]) == ValueOf(sw[i])
    {
      StableToken(pl, sw[i]);
    }
    ReparseTokens(pl, items, toks);
    FilterLength(item => IsSwitch(pl, item), toks);
    LastWinsSame(map[], pl, toks, sw);
  }

  lemma {:induction false} UnstableTokens(pl: Platform, sw: seq<string>, args: seq<string>, items: seq<string>, i: nat)
    requires i < |sw| && IsSwitch(pl, sw[i]) && !Stable(pl, sw[i]) && args == ArgItems(pl, items)
    ensures var toks := Canonicals(pl, sw);
            Canonicals(pl, SwitchItems(pl, TrimAll(pl, toks) + args)) != toks
  {
    hide Trim, Stable, IsSwitch, Canonical, ArgItems;
    var toks := Canonicals(pl, sw);
    var again := TrimAll(pl, toks);
    UnstableToken(pl, sw[i]);
    var read := SwitchItems(pl, again + args);
    if TERMINATOR in again {
      var n := FirstIndex(again, TERMINATOR);
      FirstIndexUnique(again + args, TERMINATOR, n);
      assert Parsed(again + args) == (again + args)[..n];
      FilterLength(item => IsSwitch(pl, item), Parsed(again + args));
      assert |read| < |toks|;
    } else {
      ReparseTokens(pl, items, again);
      FilterLength(item => IsSwitch(pl, item), again);
      if |read| == |toks| {
        assert read == again && again[i] in again;
        assert Canonicals(pl, read)[i] == Canonical(pl, Trim(pl, toks[i]));
      }
    }
  }

  /**
   A command line initialised from the vector of one just initialised is the same, vector,
   divider and map, exactly if every switch had a value or a name that is no bare prefix and
   does not end in white space.
   */
  lemma {:induction false} ReinitReproduces(pl: Platform, argv: seq<string>)
    ensures InitFrom(pl, Argv(InitFrom(pl, argv))) == InitFrom(pl, argv)
            <==> forall item :: item in SwitchItems(pl, Items(pl, argv)) ==> Stable(pl, item)
  {
    hide Trim, Trimmed, Stable, IsSwitch, Canonicals, LastWins, SwitchItems, ArgItems, TrimAll;
    var items := Items(pl, argv);
    var program := if argv == [] then "" else Trim(pl, argv[0]);
    var empty := Cmd(program, [], [], map[]);
    AppendPartitions(pl, empty, items);
    ItemsAreTrimmed(pl, argv);
    var sw, args, c := SwitchItems(pl, items), ArgItems(pl, items), InitFrom(pl, argv);
    var toks := Canonicals(pl, sw);
    assert [] + toks == toks && [] + args == args;
    assert c == Cmd(program, toks, args, LastWins(map[], pl, sw));
    OwnItems(pl, c);
    TrimFacts(pl, if argv == [] then "" else argv[0]);
    TrimFacts(pl, program);
    assert Argv(c)[0] == program;
    var items' := TrimAll(pl, toks) + args;
    AppendPartitions(pl, empty, items');
    if forall item :: item in sw ==> Stable(pl, item) {
      StableTokens(pl, sw, args, items);
    } else {
      var i :| 0 <= i < |sw| && !Stable(pl, sw[i]);
      UnstableTokens(pl, sw, args, items, i);
      assert [] + Canonicals(pl, SwitchItems(pl, items')) == Canonicals(pl, SwitchItems(pl, items'));
    }
  }
}
