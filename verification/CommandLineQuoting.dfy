/**
 Printing arguments so that Windows splits them back: the quoting of single arguments, the
 documented splitting rules of CommandLineToArgvW, and when one undoes the other.
 */
module CommandLineQuoting {

  // ---------- Quoting ----------

  predicate IsBlank(c: char) { c == ' ' || c == '\t' }

  /** The characters that make an argument be quoted; a tab is not among them. */
  predicate NeedsQuotes(arg: string) {
    ' ' in arg || '\\' in arg || '"' in arg
  }

  function Backslashes(n: nat): string {
    seq(n, _ => '\\')
  }

  /** The length of the run of backslashes that `s` starts with. */
  function RunLength(s: string): (n: nat)
    ensures n <= |s| && s[..n] == Backslashes(n)
    ensures n < |s| ==> s[n] != '\\'
  {
    if s != "" && s[0] == '\\' then
      var n := RunLength(s[1..]);
      assert s[..n + 1] == [s[0]] + s[1..][..n];
      n + 1
    else 0
  }

  /** A run of backslashes is doubled before a quote and at the end; quotes are escaped. */
  function Escaped(s: string): string
    decreases |s|
  {
    if s == "" then ""
    else if s[0] == '\\' then
      var n := RunLength(s);
      var rest := s[n..];
      Backslashes(if rest == "" || rest[0] == '"' then 2 * n else n) + Escaped(rest)
    else if s[0] == '"' then "\\\"" + Escaped(s[1..])
    else [s[0]] + Escaped(s[1..])
  }

  function Quoted(arg: string): string {
    if NeedsQuotes(arg) then "\"" + Escaped(arg) + "\"" else arg
  }

  lemma {:induction false} EscapedLength(s: string)
    ensures |Escaped(s)| >= |s|
    decreases |s|
  {
    if s != "" {
      EscapedLength(if s[0] == '\\' then s[RunLength(s)..] else s[1..]);
    }
  }

  /** An argument is printed as it is exactly if it has no space, backslash or quote; a tab makes no difference. */
  lemma {:induction false} QuotedIfNeeded(arg: string)
    ensures Quoted(arg) == arg <==> ' ' !in arg && '\\' !in arg && '"' !in arg
  {
    EscapedLength(arg);
  }

  method Quote(arg: string) returns (out: string)
    ensures out == Quoted(arg)
  {
    hide Escaped, RunLength;
    if !NeedsQuotes(arg) {
      return arg;
    }
    assert arg[0..] == arg;
    out := "\"";
    var i := 0;
    while i < |arg|
      invariant i <= |arg|
      invariant out + Escaped(arg[i..]) == "\"" + Escaped(arg)
    {
      ghost var done := out;
      if arg[i] == '\\' {
        var start, end := i, i + 1;
        while end < |arg| && arg[end] == '\\'
          invariant start < end <= |arg| && forall k :: start <= k < end ==> arg[k] == '\\'
        {
          end := end + 1;
        }
        var count := end - start;
        if end == |arg| || arg[end] == '"' {
          count := count * 2;
        }
        for j := 0 to count
          invariant out == done + Backslashes(j)
        {
          out := out + ['\\'];
        }
        EscapedRun(arg, start, end);
        assert out + Escaped(arg[end..]) == done + (Backslashes(count) + Escaped(arg[end..]));
        i := end;
      } else if arg[i] == '"' {
        out := out + ['\\'];
        out := out + ['"'];
        EscapedOther(arg, i);
        assert out + Escaped(arg[i + 1..]) == done + ("\\\"" + Escaped(arg[i + 1..]));
        i := i + 1;
      } else {
        out := out + [arg[i]];
        EscapedOther(arg, i);
        assert out + Escaped(arg[i + 1..]) == done + ([arg[i]] + Escaped(arg[i + 1..]));
        i := i + 1;
      }
    }
    assert arg[i..] == "" && Escaped("") == "" by {
      EscapedNothing();
    }
    out := out + "\"";
  }

  lemma {:induction false} EscapedNothing()
    ensures Escaped("") == ""
  {
  }

  lemma {:induction false} EscapedOther(arg: string, i: nat)
    requires i < |arg| && arg[i] != '\\'
    ensures Escaped(arg[i..]) == (if arg[i] == '"' then "\\\"" else [arg[i]]) + Escaped(arg[i + 1..])
  {
    assert arg[i..][1..] == arg[i + 1..];
  }

  lemma {:induction false} EscapedRun(arg: string, start: nat, end: nat)
    requires start < end <= |arg| && (end < |arg| ==> arg[end] != '\\')
    requires forall k :: start <= k < end ==> arg[k] == '\\'
    ensures Escaped(arg[start..])
            == Backslashes(if end == |arg| || arg[end] == '"' then (end - start) * 2 else end - start)
               + Escaped(arg[end..])
  {
    RunIs(arg[start..], end - start);
    assert arg[start..][end - start..] == arg[end..];
  }

  lemma {:induction false} RunIs(s: string, n: nat)
    requires n <= |s| && s[..n] == Backslashes(n) && (n < |s| ==> s[n] != '\\')
    ensures RunLength(s) == n
  {
    var m := RunLength(s);
    assert m == n;
  }

  // ---------- Splitting, as CommandLineToArgvW documents it ----------

  datatype Token = NoToken | Partial(text: string)

  function Extend(t: Token, more: string): Token {
    match t
    case NoToken => Partial(more)
    case Partial(text) => Partial(text + more)
  }

  function Finish(t: Token): seq<string> {
    match t
    case NoToken => []
    case Partial(text) => [text]
  }

  /**
   Splits `line`, having read the partial token `cur` and being inside quotes or not.
   2n backslashes before a quote stand for n and the quote opens or closes; 2n+1 stand for
   n and a literal quote; other backslashes are literal; blanks outside quotes separate.
   */
  function Split(line: string, quoted: bool, cur: Token): seq<string>
    decreases |line|
  {
    if line == "" then Finish(cur)
    else
      var n := RunLength(line);
      if n < |line| && line[n] == '"' then
        if n % 2 == 0 then Split(line[n + 1..], !quoted, Extend(cur, Backslashes(n / 2)))
        else Split(line[n + 1..], quoted, Extend(cur, Backslashes(n / 2) + "\""))
      else if n > 0 then Split(line[n..], quoted, Extend(cur, Backslashes(n)))
      else if IsBlank(line[0]) && !quoted then Finish(cur) + Split(line[1..], false, NoToken)
      else Split(line[1..], quoted, Extend(cur, [line[0]]))
  }

  function SplitLine(line: string): seq<string> {
    Split(line, false, NoToken)
  }

  // ---------- Splitting undoes quoting ----------

  lemma {:induction false} RunThen(n: nat, t: string)
    requires t == "" || t[0] != '\\'
    ensures RunLength(Backslashes(n) + t) == n
  {
    RunIs(Backslashes(n) + t, n);
  }

  lemma {:induction false} SplitChar(c: char, tail: string, quoted: bool, cur: Token)
    requires c != '\\' && c != '"' && (quoted || !IsBlank(c))
    ensures Split([c] + tail, quoted, cur) == Split(tail, quoted, Extend(cur, [c]))
  {
    RunThen(0, [c] + tail);
    assert Backslashes(0) + ([c] + tail) == [c] + tail;
    assert ([c] + tail)[1..] == tail;
  }

  lemma {:induction false} SplitRun(n: nat, tail: string, quoted: bool, cur: Token)
    requires n > 0 && (tail == "" || (tail[0] != '\\' && tail[0] != '"'))
    ensures Split(Backslashes(n) + tail, quoted, cur) == Split(tail, quoted, Extend(cur, Backslashes(n)))
  {
    RunThen(n, tail);
    assert (Backslashes(n) + tail)[n..] == tail;
  }

  lemma {:induction false} RunAndQuote(n: nat, tail: string)
    ensures var line := Backslashes(n) + "\"" + tail;
            RunLength(line) == n && line != "" && line[n] == '"' && line[n + 1..] == tail
  {
    assert Backslashes(n) + "\"" + tail == Backslashes(n) + ("\"" + tail);
    RunThen(n, "\"" + tail);
  }

  lemma {:induction false} SplitQuote(n: nat, tail: string, quoted: bool, cur: Token)
    ensures Split(Backslashes(2 * n) + "\"" + tail, quoted, cur)
            == Split(tail, !quoted, Extend(cur, Backslashes(n)))
  {
    RunAndQuote(2 * n, tail);
    assert (2 * n) % 2 == 0 && (2 * n) / 2 == n;
  }

  lemma {:induction false} SplitLiteralQuote(n: nat, tail: string, quoted: bool, cur: Token)
    ensures Split(Backslashes(2 * n + 1) + "\"" + tail, quoted, cur)
            == Split(tail, quoted, Extend(cur, Backslashes(n) + "\""))
  {
    RunAndQuote(2 * n + 1, tail);
    assert (2 * n + 1) % 2 == 1 && (2 * n + 1) / 2 == n;
  }

  /** Inside quotes, the escaped form of `s` and a closing quote are read back as `s`. */
  lemma {:induction false} SplitEscaped(s: string, tail: string, text: string)
    ensures Split(Escaped(s) + "\"" + tail, true, Partial(text)) == Split(tail, false, Partial(text + s))
    decreases |s|, 1
  {
    hide Split, Escaped;
    if s == "" {
      SplitClosingQuote(tail, text);
    } else if s[0] == '\\' {
      SplitEscapedRun(s, tail, text);
    } else if s[0] == '"' {
      SplitEscapedQuote(s, 0, tail, text);
      assert Escaped(s) == Backslashes(2 * 0) + Escaped(s);
      assert text + Backslashes(0) == text;
    } else {
      SplitEscapedChar(s, tail, text);
    }
  }

  lemma {:induction false} SplitClosingQuote(tail: string, text: string)
    ensures Split(Escaped("") + "\"" + tail, true, Partial(text)) == Split(tail, false, Partial(text + ""))
  {
    hide Split;
    SplitQuote(0, tail, true, Partial(text));
    assert Backslashes(0) + "\"" + tail == Escaped("") + "\"" + tail;
    assert text + Backslashes(0) == text + "";
  }

  lemma {:induction false} SplitEscapedChar(s: string, tail: string, text: string)
    requires s != "" && s[0] != '\\' && s[0] != '"'
    ensures Split(Escaped(s) + "\"" + tail, true, Partial(text)) == Split(tail, false, Partial(text + s))
    decreases |s|, 0
  {
    hide Split;
    SplitChar(s[0], Escaped(s[1..]) + "\"" + tail, true, Partial(text));
    assert Escaped(s) + "\"" + tail == [s[0]] + (Escaped(s[1..]) + "\"" + tail);
    SplitEscaped(s[1..], tail, text + [s[0]]);
    assert text + [s[0]] + s[1..] == text + s;
  }

  lemma EscapedQuote(s: string)
    requires s != "" && s[0] == '"'
    ensures Escaped(s) == "\\\"" + Escaped(s[1..])
  {
  }

  /** The part from a quote on, preceded by the doubled run of backslashes before it. */
  lemma {:induction false} SplitEscapedQuote(s: string, n: nat, tail: string, text: string)
    requires s != "" && s[0] == '"'
    ensures Split(Backslashes(2 * n) + Escaped(s) + "\"" + tail, true, Partial(text))
            == Split(tail, false, Partial(text + Backslashes(n) + s))
    decreases |s|, 0
  {
    hide Split, Escaped;
    EscapedQuote(s);
    var more := Escaped(s[1..]) + "\"" + tail;
    assert Backslashes(2 * n) + "\\" == Backslashes(2 * n + 1);
    assert Backslashes(2 * n) + Escaped(s) + "\"" + tail == Backslashes(2 * n) + "\\" + "\"" + more;
    SplitLiteralQuote(n, more, true, Partial(text));
    SplitEscaped(s[1..], tail, text + (Backslashes(n) + "\""));
    assert text + (Backslashes(n) + "\"") + s[1..] == text + Backslashes(n) + s;
  }

  lemma {:induction false} SplitEscapedRun(s: string, tail: string, text: string)
    requires s != "" && s[0] == '\\'
    ensures Split(Escaped(s) + "\"" + tail, true, Partial(text)) == Split(tail, false, Partial(text + s))
    decreases |s|, 0
  {
    hide Split;
    var n := RunLength(s);
    var rest := s[n..];
    assert s == Backslashes(n) + rest;
    if rest == "" {
      SplitQuote(n, tail, true, Partial(text));
      assert Escaped(s) == Backslashes(2 * n);
      assert text + Backslashes(n) == text + s;
    } else if rest[0] == '"' {
      assert Escaped(s) == Backslashes(2 * n) + Escaped(rest);
      SplitEscapedQuote(rest, n, tail, text);
      assert text + Backslashes(n) + rest == text + s;
    } else {
      assert Escaped(s) == Backslashes(n) + Escaped(rest);
      assert Escaped(s) + "\"" + tail == Backslashes(n) + (Escaped(rest) + "\"" + tail);
      EscapedStart(rest, "\"" + tail);
      assert Escaped(rest) + "\"" + tail == Escaped(rest) + ("\"" + tail);
      SplitRun(n, Escaped(rest) + "\"" + tail, true, Partial(text));
      SplitEscaped(rest, tail, text + Backslashes(n));
      assert text + Backslashes(n) + rest == text + s;
    }
  }

  lemma {:induction false} EscapedStart(s: string, tail: string)
    requires s != "" && s[0] != '\\' && s[0] != '"'
    ensures (Escaped(s) + tail)[0] == s[0]
  {
  }

  lemma {:induction false} SplitQuoted(arg: string, tail: string, cur: Token)
    requires NeedsQuotes(arg)
    ensures Split(Quoted(arg) + tail, false, cur) == Split(tail, false, Extend(cur, arg))
  {
    var more := Escaped(arg) + "\"" + tail;
    SplitQuote(0, more, false, cur);
    assert Backslashes(0) + "\"" + more == Quoted(arg) + tail;
    var text := match cur case NoToken => "" case Partial(t) => t;
    assert Extend(cur, Backslashes(0)) == Partial(text) by {
      assert text + Backslashes(0) == text;
    }
    SplitEscaped(arg, tail, text);
    assert "" + arg == arg;
  }

  // ---------- Whole command lines ----------

  /**
   One token of a command line as it is printed: an argument, or a switch whose name
   (prefix included) and value are printed around an equals sign.  A token `name=` with
   nothing after the sign has `equals` but the value "".
   */
  datatype Piece = Plain(arg: string) | Switch(name: string, equals: bool, value: string)

  function Text(p: Piece): string {
    match p
    case Plain(arg) => arg
    case Switch(name, equals, value) => if equals then name + "=" + value else name
  }

  function Printed(p: Piece): string {
    match p
    case Plain(arg) => Quoted(arg)
    case Switch(name, _, value) => if value == "" then name else name + "=" + Quoted(value)
  }

  function Texts(ps: seq<Piece>): seq<string> {
    seq(|ps|, i requires 0 <= i < |ps| => Text(ps[i]))
  }

  /** The printed pieces, separated by single spaces. */
  function Line(ps: seq<Piece>): string {
    if ps == [] then ""
    else if |ps| == 1 then Printed(ps[0])
    else Printed(ps[0]) + " " + Line(ps[1..])
  }

  predicate HasBlank(s: string) { ' ' in s || '\t' in s }

  /** A string is printed safely if it is quoted or has no blank. */
  predicate Protected(s: string) { HasBlank(s) ==> NeedsQuotes(s) }

  /** Exactly the pieces that survive printing and splitting. */
  predicate Good(p: Piece) {
    match p
    case Plain(arg) => arg != "" && Protected(arg)
    case Switch(name, equals, value) =>
      !HasBlank(name) && '"' !in name && (equals ==> value != "") && Protected(value)
  }

  /** What a token read as a switch looks like: it has a name, and a value only after a sign. */
  predicate WellFormed(p: Piece) {
    p.Switch? ==> p.name != "" && (p.value != "" ==> p.equals)
  }

  /** No quote is printed bare. */
  predicate QuoteFree(p: Piece) {
    p.Switch? ==> '"' !in p.name
  }

  predicate Simple(p: Piece) {
    WellFormed(p) && QuoteFree(p)
  }

  /** Reading quote-free text outside quotes: the finished tokens and the partial one. */
  function Words(u: string, cur: Token): (seq<string>, Token)
    decreases |u|
  {
    if u == "" then ([], cur)
    else if IsBlank(u[0]) then
      var (done, last) := Words(u[1..], NoToken);
      (Finish(cur) + done, last)
    else Words(u[1..], Extend(cur, [u[0]]))
  }

  function AllWords(u: string): seq<string> {
    var (done, last) := Words(u, NoToken);
    done + Finish(last)
  }

  /** What splitting makes of one printed piece. */
  function Yield(p: Piece): seq<string> {
    match p
    case Plain(arg) => if NeedsQuotes(arg) then [arg] else AllWords(arg)
    case Switch(name, _, value) =>
      if value == "" then AllWords(name)
      else if NeedsQuotes(value) then
        var (done, last) := Words(name + "=", NoToken);
        done + Finish(Extend(last, value))
      else AllWords(name + "=" + value)
  }

  function AllYields(ps: seq<Piece>): seq<string> {
    if ps == [] then [] else Yield(ps[0]) + AllYields(ps[1..])
  }

  lemma {:induction false} WordsRun(n: nat, t: string, cur: Token)
    ensures Words(Backslashes(n) + t, cur) == Words(t, if n == 0 then cur else Extend(cur, Backslashes(n)))
  {
    var u := Backslashes(n) + t;
    if n == 0 {
      assert u == t;
    } else {
      assert u[1..] == Backslashes(n - 1) + t;
      WordsRun(n - 1, t, Extend(cur, "\\"));
      assert "\\" + Backslashes(n - 1) == Backslashes(n);
      match cur {
        case NoToken =>
        case Partial(x) => assert x + "\\" + Backslashes(n - 1) == x + Backslashes(n);
      }
      assert n == 1 ==> Backslashes(n) == "\\";
    }
  }

  /** Quote-free text `u` that no backslash run joins to what follows is read on its own. */
  lemma {:induction false} SplitWords(u: string, w: string, cur: Token)
    requires '"' !in u
    requires w == "" || (w[0] != '\\' && w[0] != '"') || (u != "" && u[|u| - 1] != '\\')
    ensures Split(u + w, false, cur) == Words(u, cur).0 + Split(w, false, Words(u, cur).1)
    decreases |u|
  {
    if u == "" {
      assert u + w == w;
    } else if u[0] == '\\' {
      var n := RunLength(u);
      var t := u[n..];
      assert u == Backslashes(n) + t && u + w == Backslashes(n) + (t + w);
      assert t == "" || t[0] == u[n];
      assert (t + w) == "" || (t + w)[0] == if t == "" then w[0] else t[0];
      SplitRun(n, t + w, false, cur);
      WordsRun(n, t, cur);
      assert t != "" ==> t[|t| - 1] == u[|u| - 1];
      assert t == "" ==> u[|u| - 1] == '\\' by {
        assert t == "" ==> u == Backslashes(n);
      }
      SplitWords(t, w, Extend(cur, Backslashes(n)));
    } else {
      SplitWordsChar(u, w, cur);
    }
  }

  lemma {:induction false} SplitWordsChar(u: string, w: string, cur: Token)
    requires u != "" && u[0] != '\\' && '"' !in u
    requires w == "" || (w[0] != '\\' && w[0] != '"') || u[|u| - 1] != '\\'
    ensures Split(u + w, false, cur) == Words(u, cur).0 + Split(w, false, Words(u, cur).1)
    decreases |u|, 0
  {
    hide Split, Words, Extend, Finish;
    WordsChar(u, cur);
    var t := u[1..];
    assert u + w == [u[0]] + (t + w);
    var next := if IsBlank(u[0]) then NoToken else Extend(cur, [u[0]]);
    if t == "" {
      assert t + w == w;
      WordsNil(next);
    } else {
      assert t[|t| - 1] == u[|u| - 1];
      SplitWords(t, w, next);
    }
    if IsBlank(u[0]) {
      SplitBlank(u[0], t + w, cur);
    } else {
      SplitChar(u[0], t + w, false, cur);
    }
  }

  lemma WordsChar(u: string, cur: Token)
    requires u != ""
    ensures Words(u, cur)
            == if IsBlank(u[0]) then (Finish(cur) + Words(u[1..], NoToken).0, Words(u[1..], NoToken).1)
               else Words(u[1..], Extend(cur, [u[0]]))
  {
  }

  lemma WordsNil(cur: Token)
    ensures Words("", cur) == ([], cur)
  {
  }

  lemma {:induction false} SplitBlank(c: char, tail: string, cur: Token)
    requires IsBlank(c)
    ensures Split([c] + tail, false, cur) == Finish(cur) + Split(tail, false, NoToken)
  {
    RunThen(0, [c] + tail);
    assert Backslashes(0) + ([c] + tail) == [c] + tail;
    assert ([c] + tail)[1..] == tail;
  }

  lemma {:induction false} SplitEnd(tail: string, cur: Token)
    requires tail == "" || tail[0] == ' '
    ensures Split(tail, false, cur) == Finish(cur) + Split(tail, false, NoToken)
  {
    if tail != "" {
      assert tail == [tail[0]] + tail[1..];
      SplitBlank(' ', tail[1..], cur);
      SplitBlank(' ', tail[1..], NoToken);
      assert [] + Split(tail[1..], false, NoToken) == Split(tail[1..], false, NoToken);
    }
  }

  lemma {:induction false} SplitUnquoted(u: string, tail: string)
    requires '"' !in u && (tail == "" || tail[0] == ' ')
    ensures Split(u + tail, false, NoToken) == AllWords(u) + Split(tail, false, NoToken)
  {
    SplitWords(u, tail, NoToken);
    SplitEnd(tail, Words(u, NoToken).1);
  }

  /** A printed piece is split on its own. */
  lemma {:induction false} SplitPiece(p: Piece, tail: string)
    requires Simple(p) && (tail == "" || tail[0] == ' ')
    ensures Split(Printed(p) + tail, false, NoToken) == Yield(p) + Split(tail, false, NoToken)
  {
    hide Split, Quoted, Words, Escaped;
    match p {
      case Plain(arg) =>
        if NeedsQuotes(arg) {
          SplitQuoted(arg, tail, NoToken);
          SplitEnd(tail, Partial(arg));
        } else {
          UnquotedIs(arg);
          SplitUnquoted(arg, tail);
        }
      case Switch(name, _, value) =>
        if value == "" {
          SplitUnquoted(name, tail);
        } else if NeedsQuotes(value) {
          assert Printed(p) + tail == name + "=" + (Quoted(value) + tail);
          SplitWords(name + "=", Quoted(value) + tail, NoToken);
          var last := Words(name + "=", NoToken).1;
          SplitQuoted(value, tail, last);
          SplitEnd(tail, Extend(last, value));
        } else {
          UnquotedIs(value);
          SplitUnquoted(name + "=" + value, tail);
        }
    }
  }

  lemma {:induction false} UnquotedIs(arg: string)
    requires !NeedsQuotes(arg)
    ensures Quoted(arg) == arg
  {
  }

  lemma {:induction false} SplitLineOf(ps: seq<Piece>)
    requires forall p :: p in ps ==> Simple(p)
    ensures SplitLine(Line(ps)) == AllYields(ps)
  {
    hide Split, Printed, Yield;
    if |ps| == 1 {
      SplitPiece(ps[0], "");
      assert Printed(ps[0]) + "" == Line(ps);
      SplitNothing();
      assert AllYields(ps) == Yield(ps[0]) + AllYields(ps[1..]);
    } else if |ps| > 1 {
      SplitPiece(ps[0], " " + Line(ps[1..]));
      assert Printed(ps[0]) + (" " + Line(ps[1..])) == Line(ps);
      SplitBlank(' ', Line(ps[1..]), NoToken);
      assert [] + SplitLine(Line(ps[1..])) == SplitLine(Line(ps[1..]));
      SplitLineOf(ps[1..]);
    } else {
      SplitNothing();
    }
  }

  lemma {:induction false} SplitNothing()
    ensures SplitLine("") == []
  {
  }

  // ---------- Exactly which command lines survive ----------

  function Chars(tokens: seq<string>): nat {
    if tokens == [] then 0 else |tokens[0]| + Chars(tokens[1..])
  }

  function Blanks(u: string): nat {
    if u == "" then 0 else (if IsBlank(u[0]) then 1 else 0) + Blanks(u[1..])
  }

  function TokenLength(t: Token): nat {
    match t case NoToken => 0 case Partial(text) => |text|
  }

  lemma {:induction false} CharsConcat(a: seq<string>, b: seq<string>)
    ensures Chars(a + b) == Chars(a) + Chars(b)
  {
    if a == [] {
      assert a + b == b;
    } else {
      CharsConcat(a[1..], b);
      assert (a + b)[1..] == a[1..] + b;
    }
  }

  lemma {:induction false} WordsChars(u: string, cur: Token)
    ensures var (done, last) := Words(u, cur);
            Chars(done) + TokenLength(last) + Blanks(u) == TokenLength(cur) + |u|
  {
    if u != "" {
      if IsBlank(u[0]) {
        WordsChars(u[1..], NoToken);
        CharsConcat(Finish(cur), Words(u[1..], NoToken).0);
        assert Chars(Finish(cur)) == TokenLength(cur);
      } else {
        WordsChars(u[1..], Extend(cur, [u[0]]));
      }
    }
  }

  lemma {:induction false} BlanksConcat(a: string, b: string)
    ensures Blanks(a + b) == Blanks(a) + Blanks(b)
  {
    if a == "" {
      assert a + b == b;
    } else {
      BlanksConcat(a[1..], b);
      assert (a + b)[1..] == a[1..] + b;
    }
  }

  lemma {:induction false} NoBlanks(u: string)
    ensures Blanks(u) == 0 <==> !HasBlank(u)
  {
    if u != "" {
      NoBlanks(u[1..]);
      assert u == [u[0]] + u[1..];
    }
  }

  lemma {:induction false} OneWord(u: string, cur: Token)
    requires !HasBlank(u)
    ensures Words(u, cur) == ([], if u == "" then cur else Extend(cur, u))
  {
    if u != "" {
      OneWord(u[1..], Extend(cur, [u[0]]));
      assert u == [u[0]] + u[1..];
      match cur {
        case NoToken =>
        case Partial(x) => assert x + [u[0]] + u[1..] == x + u;
      }
      if u[1..] == "" {
        assert u == [u[0]];
      }
    }
  }

  lemma {:induction false} GoodYields(p: Piece)
    requires Simple(p) && Good(p)
    ensures Yield(p) == [Text(p)]
  {
    match p {
      case Plain(arg) =>
        if !NeedsQuotes(arg) {
          OneWord(arg, NoToken);
        }
      case Switch(name, equals, value) =>
        OneWord(name, NoToken);
        OneWord(name + "=", NoToken);
        if value != "" && !NeedsQuotes(value) {
          OneWord(name + "=" + value, NoToken);
        }
    }
  }

  lemma {:induction false} AllWordsChars(u: string)
    ensures Chars(AllWords(u)) + Blanks(u) == |u|
  {
    WordsChars(u, NoToken);
    var (done, last) := Words(u, NoToken);
    CharsConcat(done, Finish(last));
    assert Chars(Finish(last)) == TokenLength(last);
  }

  /** Splitting a printed piece loses its blanks outside quotes and a bare equals sign. */
  lemma {:induction false} YieldChars(p: Piece)
    requires Simple(p)
    ensures Chars(Yield(p)) <= |Text(p)|
    ensures Chars(Yield(p)) == |Text(p)| ==> Good(p) || Text(p) == ""
    ensures Text(p) == "" ==> Yield(p) == []
  {
    match p {
      case Plain(arg) =>
        AllWordsChars(arg);
        NoBlanks(arg);
      case Switch(name, equals, value) =>
        NoBlanks(name);
        NoBlanks(value);
        if value == "" {
          AllWordsChars(name);
        } else if NeedsQuotes(value) {
          WordsChars(name + "=", NoToken);
          BlanksConcat(name, "=");
          var (done, last) := Words(name + "=", NoToken);
          CharsConcat(done, Finish(Extend(last, value)));
          assert Chars(Finish(Extend(last, value))) == TokenLength(last) + |value|;
        } else {
          AllWordsChars(name + "=" + value);
          BlanksConcat(name + "=", value);
          BlanksConcat(name, "=");
        }
    }
  }

  lemma {:induction false} TextsTail(ps: seq<Piece>)
    requires ps != []
    ensures Texts(ps) == [Text(ps[0])] + Texts(ps[1..])
  {
  }

  /** Across a whole line no character is gained, and keeping them all leaves only good pieces. */
  lemma {:induction false} YieldsChars(ps: seq<Piece>)
    requires forall p :: p in ps ==> Simple(p)
    ensures Chars(AllYields(ps)) <= Chars(Texts(ps))
    ensures Chars(AllYields(ps)) == Chars(Texts(ps)) ==> forall p :: p in ps ==> Good(p) || Text(p) == ""
  {
    if ps != [] {
      YieldChars(ps[0]);
      YieldsChars(ps[1..]);
      TextsTail(ps);
      CharsConcat(Yield(ps[0]), AllYields(ps[1..]));
      assert forall p :: p in ps ==> p == ps[0] || p in ps[1..];
    }
  }

  /** Good pieces give one token each and empty ones none. */
  lemma {:induction false} YieldsCount(ps: seq<Piece>)
    requires forall p :: p in ps ==> Simple(p) && (Good(p) || Text(p) == "")
    ensures |AllYields(ps)| <= |ps|
    ensures |AllYields(ps)| == |ps| ==> forall p :: p in ps ==> Good(p)
  {
    if ps != [] {
      YieldsCount(ps[1..]);
      YieldChars(ps[0]);
      if Good(ps[0]) {
        GoodYields(ps[0]);
      }
      assert forall p :: p in ps ==> p == ps[0] || p in ps[1..];
    }
  }

  lemma {:induction false} GoodLineYields(ps: seq<Piece>)
    requires forall p :: p in ps ==> Simple(p) && Good(p)
    ensures AllYields(ps) == Texts(ps)
  {
    if ps != [] {
      GoodYields(ps[0]);
      GoodLineYields(ps[1..]);
      TextsTail(ps);
    }
  }

  lemma {:induction false} SimpleRoundTrip(ps: seq<Piece>)
    requires forall p :: p in ps ==> Simple(p)
    ensures SplitLine(Line(ps)) == Texts(ps) <==> forall p :: p in ps ==> Good(p)
  {
    SplitLineOf(ps);
    YieldsChars(ps);
    if forall p :: p in ps ==> Good(p) {
      GoodLineYields(ps);
    } else if AllYields(ps) == Texts(ps) {
      YieldsCount(ps);
    }
  }

  // ---------- A bare quote always costs a character ----------

  /** Quotes and backslashes. */
  function Marks(u: string): nat {
    if u == "" then 0 else (if u[0] == '\\' || u[0] == '"' then 1 else 0) + Marks(u[1..])
  }

  function AllMarks(tokens: seq<string>): nat {
    if tokens == [] then 0 else Marks(tokens[0]) + AllMarks(tokens[1..])
  }

  function TokenMarks(t: Token): nat {
    match t case NoToken => 0 case Partial(text) => Marks(text)
  }

  /** How many characters splitting reads at once, and how many marks it puts out for them. */
  function Taken(line: string): (k: nat)
    requires line != ""
    ensures 0 < k <= |line|
  {
    var n := RunLength(line);
    if n < |line| && line[n] == '"' then n + 1 else if n > 0 then n else 1
  }

  function Gained(line: string): nat
    requires line != ""
  {
    var n := RunLength(line);
    if n < |line| && line[n] == '"' then n / 2 + n % 2 else n
  }

  /** How many quotes and backslashes splitting puts out for a line, in whatever state it reads it. */
  function MarksOut(line: string): nat
    decreases |line|
  {
    if line == "" then 0 else Gained(line) + MarksOut(line[Taken(line)..])
  }

  lemma {:induction false} MarksConcat(a: string, b: string)
    ensures Marks(a + b) == Marks(a) + Marks(b)
  {
    if a == "" {
      assert a + b == b;
    } else {
      MarksConcat(a[1..], b);
      assert (a + b)[1..] == a[1..] + b;
    }
  }

  lemma {:induction false} AllMarksConcat(a: seq<string>, b: seq<string>)
    ensures AllMarks(a + b) == AllMarks(a) + AllMarks(b)
  {
    if a == [] {
      assert a + b == b;
    } else {
      AllMarksConcat(a[1..], b);
      assert (a + b)[1..] == a[1..] + b;
    }
  }

  lemma {:induction false} MarksOfRun(n: nat)
    ensures Marks(Backslashes(n)) == n
  {
    if n > 0 {
      MarksOfRun(n - 1);
      assert Backslashes(n)[1..] == Backslashes(n - 1);
    }
  }

  lemma ExtendMarks(cur: Token, more: string)
    ensures TokenMarks(Extend(cur, more)) == TokenMarks(cur) + Marks(more)
  {
    if cur.Partial? {
      MarksConcat(cur.text, more);
    }
  }

  lemma FinishMarks(cur: Token)
    ensures AllMarks(Finish(cur)) == TokenMarks(cur)
  {
    if cur.Partial? {
      assert [cur.text][1..] == [];
    }
  }

  lemma OneMark(c: char)
    ensures Marks([c]) == if c == '\\' || c == '"' then 1 else 0
  {
    assert [c][1..] == "";
  }

  /** Splitting puts out just these, however it is quoted. */
  lemma {:induction false} SplitMarks(line: string, quoted: bool, cur: Token)
    ensures AllMarks(Split(line, quoted, cur)) == TokenMarks(cur) + MarksOut(line)
    decreases |line|, 1
  {
    hide Marks, AllMarks, TokenMarks, Extend, Finish;
    var n := if line == "" then 0 else RunLength(line);
    if line == "" {
      FinishMarks(cur);
    } else if n < |line| && line[n] == '"' {
      SplitMarks(line[n + 1..], !quoted, Extend(cur, Backslashes(n / 2)));
      SplitMarks(line[n + 1..], quoted, Extend(cur, Backslashes(n / 2) + "\""));
      QuoteMarks(n / 2, cur);
    } else if n > 0 {
      SplitMarks(line[n..], quoted, Extend(cur, Backslashes(n)));
      MarksOfRun(n);
      ExtendMarks(cur, Backslashes(n));
    } else {
      CharMarks(line, quoted, cur);
    }
  }

  lemma QuoteMarks(n: nat, cur: Token)
    ensures TokenMarks(Extend(cur, Backslashes(n))) == TokenMarks(cur) + n
    ensures TokenMarks(Extend(cur, Backslashes(n) + "\"")) == TokenMarks(cur) + n + 1
  {
    hide Marks, TokenMarks, Extend;
    MarksOfRun(n);
    MarksConcat(Backslashes(n), "\"");
    OneMark('"');
    ExtendMarks(cur, Backslashes(n));
    ExtendMarks(cur, Backslashes(n) + "\"");
  }

  lemma {:induction false} CharMarks(line: string, quoted: bool, cur: Token)
    requires line != "" && RunLength(line) == 0 && line[0] != '"'
    ensures AllMarks(Split(line, quoted, cur)) == TokenMarks(cur) + MarksOut(line)
    decreases |line|, 0
  {
    hide Marks, AllMarks, TokenMarks, Extend, Finish;
    OneMark(line[0]);
    if IsBlank(line[0]) && !quoted {
      SplitMarks(line[1..], false, NoToken);
      FinishMarks(cur);
      NoMarks();
      AllMarksConcat(Finish(cur), Split(line[1..], false, NoToken));
    } else {
      SplitMarks(line[1..], quoted, Extend(cur, [line[0]]));
      ExtendMarks(cur, [line[0]]);
    }
  }

  lemma NoMarks()
    ensures TokenMarks(NoToken) == 0
  {
  }

  /** Of text printed as it is, each quote costs at least one mark. */
  lemma {:induction false} RawMarks(u: string)
    ensures MarksOut(u) <= Marks(u) && (MarksOut(u) == Marks(u) <==> '"' !in u)
    decreases |u|
  {
    if u != "" {
      var n := RunLength(u);
      MarksOfRun(n);
      if n < |u| && u[n] == '"' {
        assert u == Backslashes(n) + "\"" + u[n + 1..];
        MarksConcat(Backslashes(n) + "\"", u[n + 1..]);
        MarksConcat(Backslashes(n), "\"");
        OneMark('"');
        RawMarks(u[n + 1..]);
      } else if n > 0 {
        assert u == Backslashes(n) + u[n..];
        MarksConcat(Backslashes(n), u[n..]);
        RawMarks(u[n..]);
      } else {
        assert u == [u[0]] + u[1..];
        RawMarks(u[1..]);
      }
    }
  }

  /** Text that no backslash run joins to what follows counts on its own. */
  lemma {:induction false} MarksOutJoin(u: string, w: string)
    requires w == "" || (w[0] != '\\' && w[0] != '"') || (u != "" && u[|u| - 1] != '\\')
    ensures MarksOut(u + w) == MarksOut(u) + MarksOut(w)
    decreases |u|
  {
    hide MarksOut, Taken, Gained;
    if u == "" {
      assert u + w == w;
      MarksOutNothing();
    } else {
      JoinedRun(u, w);
      MarksOutIs(u);
      MarksOutIs(u + w);
      var k := Taken(u);
      assert (u + w)[k..] == u[k..] + w;
      if k == |u| {
        assert u[k..] + w == w;
        MarksOutNothing();
      } else {
        assert u[k..][|u| - k - 1] == u[|u| - 1];
        MarksOutJoin(u[k..], w);
      }
    }
  }

  lemma MarksOutIs(line: string)
    requires line != ""
    ensures MarksOut(line) == Gained(line) + MarksOut(line[Taken(line)..])
  {
  }

  lemma {:induction false} JoinedRun(u: string, w: string)
    requires u != ""
    requires w == "" || (w[0] != '\\' && w[0] != '"') || u[|u| - 1] != '\\'
    ensures Taken(u + w) == Taken(u) && Gained(u + w) == Gained(u)
  {
    var n := RunLength(u);
    if n == |u| {
      assert u[|u| - 1] == Backslashes(n)[n - 1] == '\\';
    }
    assert (u + w)[..n] == u[..n];
    RunIs(u + w, n);
  }

  /** A quoted string comes out with just its own marks. */
  lemma {:induction false} QuotedMarks(arg: string, tail: string)
    requires NeedsQuotes(arg)
    ensures MarksOut(Quoted(arg) + tail) == Marks(arg) + MarksOut(tail)
  {
    hide Split, Quoted, MarksOut;
    SplitQuoted(arg, tail, NoToken);
    SplitMarks(Quoted(arg) + tail, false, NoToken);
    SplitMarks(tail, false, Extend(NoToken, arg));
  }

  lemma {:induction false} PieceMarks(p: Piece, tail: string)
    requires WellFormed(p) && (tail == "" || tail[0] == ' ')
    ensures MarksOut(Printed(p) + tail) <= Marks(Text(p)) + MarksOut(tail)
    ensures MarksOut(Printed(p) + tail) == Marks(Text(p)) + MarksOut(tail) <==> QuoteFree(p)
  {
    hide Quoted, MarksOut, Marks;
    match p {
      case Plain(arg) =>
        if NeedsQuotes(arg) {
          QuotedMarks(arg, tail);
        } else {
          UnquotedIs(arg);
          MarksOutJoin(arg, tail);
          RawMarks(arg);
        }
      case Switch(name, equals, value) =>
        MarksConcat(name, "=");
        OneMark('=');
        RawMarks(name);
        if value == "" {
          MarksOutJoin(name, tail);
          assert name + "=" + value == name + "=";
        } else {
          MarksConcat(name + "=", value);
          RawMarks(name + "=");
          assert Printed(p) + tail == name + "=" + (Quoted(value) + tail);
          MarksOutJoin(name + "=", Quoted(value) + tail);
          if NeedsQuotes(value) {
            QuotedMarks(value, tail);
          } else {
            UnquotedIs(value);
            MarksOutJoin(value, tail);
            RawMarks(value);
          }
        }
    }
  }

  lemma {:induction false} LineMarks(ps: seq<Piece>)
    requires forall p :: p in ps ==> WellFormed(p)
    ensures MarksOut(Line(ps)) <= AllMarks(Texts(ps))
    ensures MarksOut(Line(ps)) == AllMarks(Texts(ps)) <==> forall p :: p in ps ==> QuoteFree(p)
  {
    hide Printed, Text, MarksOut, Marks, WellFormed, QuoteFree;
    MarksOutNothing();
    if ps != [] {
      var rest := Line(ps[1..]);
      TextsTail(ps);
      LineMarks(ps[1..]);
      assert forall p :: p in ps <==> p == ps[0] || p in ps[1..];
      if |ps| == 1 {
        PieceMarks(ps[0], "");
        assert Printed(ps[0]) + "" == Line(ps);
      } else {
        PieceMarks(ps[0], " " + rest);
        assert Printed(ps[0]) + (" " + rest) == Line(ps);
        MarksOutJoin(" ", rest);
      }
    }
  }

  lemma MarksOutNothing()
    ensures MarksOut("") == 0 && MarksOut(" ") == 0
  {
    assert " "[1..] == "";
  }

  /**
   Splitting the printed line gives back the tokens exactly if every piece is good, whatever the
   names and arguments hold.
   */
  lemma {:induction false} LineRoundTrip(ps: seq<Piece>)
    requires forall p :: p in ps ==> WellFormed(p)
    ensures SplitLine(Line(ps)) == Texts(ps) <==> forall p :: p in ps ==> Good(p)
  {
    hide Split, Line, Texts, MarksOut, AllMarks, WellFormed;
    if forall p :: p in ps ==> QuoteFree(p) {
      SimpleRoundTrip(ps);
    } else {
      SplitMarks(Line(ps), false, NoToken);
      NoMarks();
      LineMarks(ps);
      var p :| p in ps && !QuoteFree(p);
      assert !Good(p);
    }
  }

  function Joined(args: seq<string>): string {
    if args == [] then ""
    else if |args| == 1 then Quoted(args[0])
    else Quoted(args[0]) + " " + Joined(args[1..])
  }

  /**
   The quoted arguments joined by spaces split back into the arguments exactly if none is
   empty and each one holding a tab also holds a character that makes it be quoted.
   */
  lemma {:induction false} QuotingRoundTrip(args: seq<string>)
    ensures SplitLine(Joined(args)) == args
            <==> forall a :: a in args ==> a != "" && ('\t' in a ==> ' ' in a || '\\' in a || '"' in a)
  {
    var ps := seq(|args|, i requires 0 <= i < |args| => Plain(args[i]));
    assert forall p :: p in ps ==> p.Plain? && p.arg in args;
    assert forall i :: 0 <= i < |args| ==> Plain(args[i]) == ps[i];
    assert Texts(ps) == args;
    JoinedIsLine(args, ps);
    LineRoundTrip(ps);
    if forall p :: p in ps ==> Good(p) {
      forall a | a in args ensures a != "" && ('\t' in a ==> NeedsQuotes(a)) {
        assert Plain(a) in ps;
      }
    }
  }

  lemma {:induction false} JoinedIsLine(args: seq<string>, ps: seq<Piece>)
    requires |ps| == |args| && forall i :: 0 <= i < |args| ==> ps[i] == Plain(args[i])
    ensures Joined(args) == Line(ps)
  {
    if |args| > 1 {
      JoinedIsLine(args[1..], ps[1..]);
    }
  }

  lemma SplitAtEnd(quoted: bool, cur: Token)
    ensures Split("", quoted, cur) == Finish(cur)
  {
  }

  lemma BareQuoteIsLost()
    ensures SplitLine("-a\"b") == ["-ab"]
  {
    hide Escaped, Split, Words, Quoted, NeedsQuotes;
    var line := "-a\"b";
    SplitChar('-', "a\"b", false, NoToken);
    SplitChar('a', "\"b", false, Partial("-"));
    SplitQuote(0, "b", false, Partial("-a"));
    assert Backslashes(0) + "\"" + "b" == "\"b" && "-a" + Backslashes(0) == "-a";
    SplitChar('b', "", true, Partial("-a"));
    SplitAtEnd(true, Partial("-ab"));
    assert ['b'] + "" == "b" && ['a'] + "\"b" == "a\"b" && ['-'] + "a\"b" == line;
    assert "-" + "a" == "-a" && "-a" + "b" == "-ab";
  }
}
