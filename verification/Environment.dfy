/**
 AlterEnvironment: an environment and a set of changes become a new environment, packed into one block
 of memory that reads back as it should, in the POSIX and in the Windows layout.
 */
module Environments {
  import opened Options
  import opened Sequences

  const NUL: char := '\0'
  const EQUALS: char := '='

  /** The changes in the order their map is iterated; an empty value deletes. */
  datatype Change = Change(key: string, value: string)

  // ---------- Lines ----------

  /** The null-terminated string at the start of some memory. */
  function TextAt(memory: string): (text: string)
    ensures NUL !in text && |text| <= |memory|
  {
    memory[..FirstIndex(memory, NUL)]
  }

  /** What comes before the first equals sign, or everything. */
  function KeyOf(line: string): (key: string)
    ensures EQUALS !in key && |key| <= |line|
  {
    line[..FirstIndex(line, EQUALS)]
  }

  /** The key of the line at the start of `input`, and the length of the line with its null. */
  method ParseEnvLine(input: string) returns (key: string, length: nat)
    requires NUL in input
    ensures key == KeyOf(TextAt(input)) && length == |TextAt(input)| + 1 <= |input|
    ensures input[..length] == TextAt(input) + [NUL]
  {
    var end := FirstIndex(input, NUL);
    var cur := 0;
    while input[cur] != NUL && input[cur] != EQUALS
      invariant 0 <= cur <= end
      invariant EQUALS !in input[..cur]
      decreases end - cur
    {
      cur := cur + 1;
    }
    key := input[..cur];
    KeyEnds(input, cur);
    while input[cur] != NUL
      invariant 0 <= cur <= end
      decreases end - cur
    {
      cur := cur + 1;
    }
    length := cur + 1;
  }

  lemma KeyEnds(input: string, cur: nat)
    requires NUL in input && cur <= FirstIndex(input, NUL) && EQUALS !in input[..cur]
    requires input[cur] == NUL || input[cur] == EQUALS
    ensures KeyOf(TextAt(input)) == input[..cur]
  {
    var text := TextAt(input);
    assert text[..cur] == input[..cur];
    FirstIndexUnique(text, EQUALS, cur);
  }

  // ---------- What the result should be ----------

  predicate Changes(changes: seq<Change>, key: string) {
    exists i :: 0 <= i < |changes| && changes[i].key == key
  }

  /** The lines no change speaks of. */
  function Untouched(lines: seq<string>, changes: seq<Change>): seq<string> {
    if |lines| == 0 then []
    else
      var line, before := lines[|lines| - 1], Untouched(lines[..|lines| - 1], changes);
      if Changes(changes, KeyOf(line)) then before else before + [line]
  }

  function LineOf(c: Change): string {
    c.key + [EQUALS] + c.value
  }

  /** One line for each change that does not delete. */
  function Added(changes: seq<Change>): seq<string> {
    if |changes| == 0 then []
    else
      var c, before := changes[|changes| - 1], Added(changes[..|changes| - 1]);
      if c.value == "" then before else before + [LineOf(c)]
  }

  function Altered(lines: seq<string>, changes: seq<Change>): seq<string> {
    Untouched(lines, changes) + Added(changes)
  }

  /** The lines that set `key`. */
  function Setting(lines: seq<string>, key: string): seq<string> {
    if |lines| == 0 then []
    else
      var line, before := lines[|lines| - 1], Setting(lines[..|lines| - 1], key);
      if KeyOf(line) == key then before + [line] else before
  }

  lemma {:induction false} SettingJoin(a: seq<string>, b: seq<string>, key: string)
    ensures Setting(a + b, key) == Setting(a, key) + Setting(b, key)
    decreases |b|
  {
    if |b| == 0 {
      assert a + b == a;
    } else {
      assert (a + b)[..|a + b| - 1] == a + b[..|b| - 1];
      SettingJoin(a, b[..|b| - 1], key);
    }
  }

  lemma OneLine(line: string, key: string, changes: seq<Change>)
    ensures Setting([line], key) == if KeyOf(line) == key then [line] else []
    ensures Untouched([line], changes) == if Changes(changes, KeyOf(line)) then [] else [line]
  {
    hide KeyOf;
    assert [line][..0] == [];
    assert Setting([], key) == [] && Untouched([], changes) == [];
  }

  lemma {:induction false} SettingUntouched(lines: seq<string>, changes: seq<Change>, key: string)
    ensures Setting(Untouched(lines, changes), key) == if Changes(changes, key) then [] else Setting(lines, key)
    decreases |lines|
  {
    hide KeyOf, Changes;
    if |lines| > 0 {
      var rest, line := lines[..|lines| - 1], lines[|lines| - 1];
      SettingUntouched(rest, changes, key);
      if !Changes(changes, KeyOf(line)) {
        SettingJoin(Untouched(rest, changes), [line], key);
        OneLine(line, key, changes);
      }
    }
  }

  lemma KeyOfLineOf(c: Change)
    ensures KeyOf(LineOf(c)) == c.key <==> EQUALS !in c.key
  {
    if EQUALS !in c.key {
      FirstIndexIn(c.key, EQUALS, c.value);
    }
  }

  /** Whatever is set has a key without an equals sign. */
  predicate PlainKeys(changes: seq<Change>) {
    forall i :: 0 <= i < |changes| && changes[i].value != "" ==> EQUALS !in changes[i].key
  }

  predicate DistinctKeys(changes: seq<Change>) {
    forall i, j :: 0 <= i < j < |changes| ==> changes[i].key != changes[j].key
  }

  lemma {:induction false} SettingAddedNone(changes: seq<Change>, key: string)
    requires PlainKeys(changes) && forall i :: 0 <= i < |changes| ==> changes[i].key != key
    ensures Setting(Added(changes), key) == []
    decreases |changes|
  {
    hide KeyOf, LineOf;
    if |changes| > 0 {
      var rest, c := changes[..|changes| - 1], changes[|changes| - 1];
      SettingAddedNone(rest, key);
      KeyOfLineOf(c);
      OneLine(LineOf(c), key, changes);
      SettingJoin(Added(rest), [LineOf(c)], key);
    }
  }

  lemma {:induction false} SettingAddedOne(changes: seq<Change>, i: nat)
    requires PlainKeys(changes) && DistinctKeys(changes) && i < |changes|
    ensures Setting(Added(changes), changes[i].key) == if changes[i].value == "" then [] else [LineOf(changes[i])]
    decreases |changes|
  {
    hide KeyOf, LineOf;
    var rest, c, key := changes[..|changes| - 1], changes[|changes| - 1], changes[i].key;
    KeyOfLineOf(c);
    OneLine(LineOf(c), key, changes);
    SettingJoin(Added(rest), [LineOf(c)], key);
    if i == |changes| - 1 {
      SettingAddedNone(rest, key);
    } else {
      SettingAddedOne(rest, i);
    }
  }

  lemma {:induction false} SettingEquals(lines: seq<string>, key: string)
    requires EQUALS in key
    ensures Setting(lines, key) == []
    decreases |lines|
  {
    if |lines| > 0 {
      SettingEquals(lines[..|lines| - 1], key);
    }
  }

  /**
   A changed key is set once, to the new value; a deleted one is not set at all; and the lines that set
   any other key are those that did before.
   */
  ghost predicate Meant(lines: seq<string>, changes: seq<Change>, key: string) {
    && (!Changes(changes, key) ==> Setting(Altered(lines, changes), key) == Setting(lines, key))
    && (forall i :: 0 <= i < |changes| && changes[i].key == key ==>
          Setting(Altered(lines, changes), key) == if changes[i].value == "" then [] else [LineOf(changes[i])])
  }

  /** That is so for every key exactly if whatever is set has a key without an equals sign. */
  lemma {:induction false} AlteredMeaning(lines: seq<string>, changes: seq<Change>)
    requires DistinctKeys(changes)
    ensures (forall key :: Meant(lines, changes, key)) <==> PlainKeys(changes)
  {
    hide Altered, Setting, LineOf;
    if PlainKeys(changes) {
      forall key
        ensures Meant(lines, changes, key)
      {
        PlainMeaning(lines, changes, key);
      }
    } else {
      var i :| 0 <= i < |changes| && changes[i].value != "" && EQUALS in changes[i].key;
      SettingEquals(Altered(lines, changes), changes[i].key);
      assert !Meant(lines, changes, changes[i].key);
    }
  }

  lemma {:induction false} PlainMeaning(lines: seq<string>, changes: seq<Change>, key: string)
    requires PlainKeys(changes) && DistinctKeys(changes)
    ensures Meant(lines, changes, key)
  {
    hide Untouched, Added, Setting, PlainKeys, DistinctKeys, LineOf;
    SettingJoin(Untouched(lines, changes), Added(changes), key);
    SettingUntouched(lines, changes, key);
    if Changes(changes, key) {
      forall i | 0 <= i < |changes| && changes[i].key == key
        ensures Setting(Added(changes), key) == if changes[i].value == "" then [] else [LineOf(changes[i])]
      {
        SettingAddedOne(changes, i);
      }
    } else {
      SettingAddedNone(changes, key);
    }
  }

  lemma {:induction false} UntouchedJoin(a: seq<string>, b: seq<string>, changes: seq<Change>)
    ensures Untouched(a + b, changes) == Untouched(a, changes) + Untouched(b, changes)
    decreases |b|
  {
    if |b| == 0 {
      assert a + b == a;
    } else {
      assert (a + b)[..|a + b| - 1] == a + b[..|b| - 1];
      UntouchedJoin(a, b[..|b| - 1], changes);
    }
  }

  lemma {:induction false} UntouchedTwice(lines: seq<string>, changes: seq<Change>)
    ensures Untouched(Untouched(lines, changes), changes) == Untouched(lines, changes)
    decreases |lines|
  {
    hide KeyOf, Changes;
    if |lines| > 0 {
      var rest, line := lines[..|lines| - 1], lines[|lines| - 1];
      UntouchedTwice(rest, changes);
      if !Changes(changes, KeyOf(line)) {
        UntouchedJoin(Untouched(rest, changes), [line], changes);
        OneLine(line, "", changes);
      }
    }
  }

  /** The key an added line reads back under. */
  lemma KeyOfAdded(c: Change)
    ensures KeyOf(LineOf(c)) == KeyOf(c.key)
  {
    var i := FirstIndex(c.key, EQUALS);
    var line := LineOf(c);
    assert line[..i] == c.key[..i];
    FirstIndexUnique(line, EQUALS, i);
  }

  /** Each key that is set is, up to its first equals sign, a changed key itself. */
  predicate Settled(changes: seq<Change>, n: nat)
    requires n <= |changes|
  {
    forall i :: 0 <= i < n && changes[i].value != "" ==> Changes(changes, KeyOf(changes[i].key))
  }

  lemma {:induction false} AddedTouched(all: seq<Change>, n: nat)
    requires n <= |all|
    ensures Untouched(Added(all[..n]), all) == [] <==> Settled(all, n)
    decreases n
  {
    hide KeyOf, LineOf, Changes;
    if n > 0 {
      var c := all[n - 1];
      assert all[..n][..n - 1] == all[..n - 1];
      AddedTouched(all, n - 1);
      KeyOfAdded(c);
      UntouchedJoin(Added(all[..n - 1]), [LineOf(c)], all);
      OneLine(LineOf(c), "", all);
    }
  }

  /** Applying the same changes again changes nothing exactly if every key that is set is settled. */
  lemma {:induction false} Idempotent(lines: seq<string>, changes: seq<Change>)
    ensures Altered(Altered(lines, changes), changes) == Altered(lines, changes)
            <==> Settled(changes, |changes|)
  {
    hide Untouched, Added, Settled;
    UntouchedJoin(Untouched(lines, changes), Added(changes), changes);
    UntouchedTwice(lines, changes);
    AddedTouched(changes, |changes|);
    assert changes[..|changes|] == changes;
    var again := Untouched(Added(changes), changes);
    assert |Altered(Altered(lines, changes), changes)| == |Altered(lines, changes)| + |again|;
    if again == [] {
      assert Untouched(lines, changes) + again == Untouched(lines, changes);
    }
  }

  // ---------- The order of the lines ----------

  /** How many of the first `n` lines stay. */
  function Staying(lines: seq<string>, changes: seq<Change>, n: nat): nat
    requires n <= |lines|
  {
    if n == 0 then 0 else Staying(lines, changes, n - 1) + if Changes(changes, KeyOf(lines[n - 1])) then 0 else 1
  }

  /** How many of the first `n` changes set a value. */
  function Setters(changes: seq<Change>, n: nat): nat
    requires n <= |changes|
  {
    if n == 0 then 0 else Setters(changes, n - 1) + if changes[n - 1].value == "" then 0 else 1
  }

  lemma UntouchedNext(lines: seq<string>, changes: seq<Change>, n: nat)
    requires 0 < n <= |lines|
    ensures Untouched(lines[..n], changes)
            == Untouched(lines[..n - 1], changes) + if Changes(changes, KeyOf(lines[n - 1])) then [] else [lines[n - 1]]
  {
    hide KeyOf, Changes;
    assert lines[..n][..n - 1] == lines[..n - 1];
  }

  lemma {:induction false} UntouchedCount(lines: seq<string>, changes: seq<Change>, n: nat)
    requires n <= |lines|
    ensures |Untouched(lines[..n], changes)| == Staying(lines, changes, n)
  {
    hide KeyOf, Changes;
    if n > 0 {
      UntouchedCount(lines, changes, n - 1);
      UntouchedNext(lines, changes, n);
    }
  }

  lemma {:induction false} UntouchedAt(lines: seq<string>, changes: seq<Change>, n: nat, i: nat)
    requires i < n <= |lines| && !Changes(changes, KeyOf(lines[i]))
    ensures var some, k := Untouched(lines[..n], changes), Staying(lines, changes, i);
            k < |some| && some[k] == lines[i]
  {
    hide Untouched, KeyOf, Changes, Staying;
    UntouchedNext(lines, changes, n);
    if i < n - 1 {
      UntouchedAt(lines, changes, n - 1, i);
    } else {
      UntouchedCount(lines, changes, i);
    }
  }

  lemma AddedNext(changes: seq<Change>, n: nat)
    requires 0 < n <= |changes|
    ensures Added(changes[..n]) == Added(changes[..n - 1])
                                   + if changes[n - 1].value == "" then [] else [LineOf(changes[n - 1])]
  {
    hide LineOf;
    assert changes[..n][..n - 1] == changes[..n - 1];
  }

  lemma {:induction false} AddedCount(changes: seq<Change>, n: nat)
    requires n <= |changes|
    ensures |Added(changes[..n])| == Setters(changes, n)
  {
    if n > 0 {
      AddedCount(changes, n - 1);
      AddedNext(changes, n);
    }
  }

  lemma {:induction false} AddedAt(changes: seq<Change>, n: nat, i: nat)
    requires i < n <= |changes| && changes[i].value != ""
    ensures var some, k := Added(changes[..n]), Setters(changes, i);
            k < |some| && some[k] == changes[i].key + [EQUALS] + changes[i].value
  {
    hide Added, Setters;
    AddedNext(changes, n);
    if i < n - 1 {
      AddedAt(changes, n - 1, i);
    } else {
      AddedCount(changes, i);
    }
  }

  /**
   The lines that stay come first, in their old order, then one line for each change that sets a value, in
   the order of the changes, and nothing else.
   */
  lemma {:induction false} LineOrder(lines: seq<string>, changes: seq<Change>)
    ensures var result, stay := Altered(lines, changes), Staying(lines, changes, |lines|);
            && |result| == stay + Setters(changes, |changes|)
            && (forall i :: 0 <= i < |lines| && !Changes(changes, KeyOf(lines[i])) ==>
                  Staying(lines, changes, i) < stay && result[Staying(lines, changes, i)] == lines[i])
            && (forall i :: 0 <= i < |changes| && changes[i].value != "" ==>
                  && Setters(changes, i) < Setters(changes, |changes|)
                  && result[stay + Setters(changes, i)] == changes[i].key + [EQUALS] + changes[i].value)
  {
    hide Untouched, Added, KeyOf, Changes, Staying, Setters;
    UntouchedCount(lines, changes, |lines|);
    AddedCount(changes, |changes|);
    assert lines[..|lines|] == lines && changes[..|changes|] == changes;
    forall i | 0 <= i < |lines| && !Changes(changes, KeyOf(lines[i]))
      ensures Staying(lines, changes, i) < Staying(lines, changes, |lines|)
      ensures Altered(lines, changes)[Staying(lines, changes, i)] == lines[i]
    {
      UntouchedAt(lines, changes, |lines|, i);
    }
    forall i | 0 <= i < |changes| && changes[i].value != ""
      ensures Setters(changes, i) < Setters(changes, |changes|)
      ensures Altered(lines, changes)[Staying(lines, changes, |lines|) + Setters(changes, i)]
              == changes[i].key + [EQUALS] + changes[i].value
    {
      AddedAt(changes, |changes|, i);
    }
  }

  // ---------- Packing ----------

  /** The lines one after the other, each with its null. */
  function Flat(lines: seq<string>): string {
    if |lines| == 0 then [] else Flat(lines[..|lines| - 1]) + (lines[|lines| - 1] + [NUL])
  }

  /** Where each line starts. */
  function Offsets(lines: seq<string>): (os: seq<nat>)
    ensures |os| == |lines|
  {
    seq(|lines|, i requires 0 <= i < |lines| => |Flat(lines[..i])|)
  }

  lemma {:induction false} FlatSplits(lines: seq<string>, i: nat)
    requires i <= |lines|
    ensures Flat(lines) == Flat(lines[..i]) + Flat(lines[i..])
    decreases |lines| - i
  {
    if i == |lines| {
      assert lines[..i] == lines;
    } else {
      FlatSplits(lines, i + 1);
      FlatFirst(lines[i], lines[i + 1..]);
      assert lines[i..] == [lines[i]] + lines[i + 1..];
      assert lines[..i + 1][..i] == lines[..i];
    }
  }

  lemma {:induction false} FlatFirst(line: string, rest: seq<string>)
    ensures Flat([line] + rest) == line + [NUL] + Flat(rest)
    decreases |rest|
  {
    if |rest| == 0 {
      assert [line] + rest == [line] && [line][..0] == [];
    } else {
      var front, last := rest[..|rest| - 1], rest[|rest| - 1];
      assert ([line] + rest)[..|rest|] == [line] + front;
      FlatFirst(line, front);
      assert line + [NUL] + Flat(front) + (last + [NUL]) == line + [NUL] + (Flat(front) + (last + [NUL]));
    }
  }

  lemma {:induction false} TextOfLine(line: string, rest: string)
    ensures TextAt(line + [NUL] + rest) == TextAt(line + [NUL])
    ensures TextAt(line + [NUL]) == line <==> NUL !in line
  {
    var i := FirstIndex(line, NUL);
    assert (line + [NUL] + rest)[..i] == line[..i] && (line + [NUL])[..i] == line[..i];
    FirstIndexUnique(line + [NUL] + rest, NUL, i);
    FirstIndexUnique(line + [NUL], NUL, i);
  }

  /** A line's offset is where its text begins, and the text is the whole line just if there is no null in it. */
  lemma {:induction false} OffsetStartsLine(lines: seq<string>, i: nat)
    requires i < |lines|
    ensures Offsets(lines)[i] < |Flat(lines)| && NUL in Flat(lines)[Offsets(lines)[i]..]
    ensures TextAt(Flat(lines)[Offsets(lines)[i]..]) == lines[i] <==> NUL !in lines[i]
  {
    FlatSplits(lines, i);
    FlatFirst(lines[i], lines[i + 1..]);
    assert lines[i..] == [lines[i]] + lines[i + 1..];
    var memory := Flat(lines)[Offsets(lines)[i]..];
    assert memory == lines[i] + [NUL] + Flat(lines[i + 1..]);
    assert memory[|lines[i]|] == NUL;
    TextOfLine(lines[i], Flat(lines[i + 1..]));
  }

  predicate Clean(lines: seq<string>) {
    forall i :: 0 <= i < |lines| ==> NUL !in lines[i]
  }

  /** No change that adds a line has a null in its key or value. */
  predicate CleanChanges(changes: seq<Change>) {
    forall i :: 0 <= i < |changes| && changes[i].value != "" ==> NUL !in changes[i].key && NUL !in changes[i].value
  }

  lemma LineClean(c: Change)
    ensures NUL !in LineOf(c) <==> NUL !in c.key && NUL !in c.value
  {
    var line := LineOf(c);
    assert forall i :: 0 <= i < |c.key| ==> line[i] == c.key[i];
    assert forall i :: 0 <= i < |c.value| ==> line[|c.key| + 1 + i] == c.value[i];
  }

  lemma {:induction false} AddedClean(changes: seq<Change>)
    ensures Clean(Added(changes)) <==> CleanChanges(changes)
    decreases |changes|
  {
    hide LineOf;
    if |changes| > 0 {
      var rest, c := changes[..|changes| - 1], changes[|changes| - 1];
      AddedClean(rest);
      LineClean(c);
      CleanJoin(Added(rest), [LineOf(c)]);
      assert Clean([LineOf(c)]) <==> NUL !in [LineOf(c)][0];
      CleanLast(rest, c);
      assert rest + [c] == changes;
    }
  }

  lemma CleanLast(rest: seq<Change>, c: Change)
    ensures CleanChanges(rest + [c]) <==> CleanChanges(rest) && (c.value != "" ==> NUL !in c.key && NUL !in c.value)
  {
    var all := rest + [c];
    assert all[|rest|] == c;
    assert forall i :: 0 <= i < |rest| ==> all[i] == rest[i];
  }

  lemma CleanJoin(a: seq<string>, b: seq<string>)
    ensures Clean(a + b) <==> Clean(a) && Clean(b)
  {
    if Clean(a + b) {
      forall i | 0 <= i < |a|
        ensures NUL !in a[i]
      {
        assert (a + b)[i] == a[i];
      }
      forall i | 0 <= i < |b|
        ensures NUL !in b[i]
      {
        assert (a + b)[|a| + i] == b[i];
      }
    }
  }

  lemma {:induction false} UntouchedClean(lines: seq<string>, changes: seq<Change>)
    requires Clean(lines)
    ensures Clean(Untouched(lines, changes))
    decreases |lines|
  {
    if |lines| > 0 {
      UntouchedClean(lines[..|lines| - 1], changes);
    }
  }

  /** The altered lines are free of nulls exactly if the changes are, for lines read from null-terminated memory. */
  lemma {:induction false} AlteredClean(lines: seq<string>, changes: seq<Change>)
    requires Clean(lines)
    ensures Clean(Altered(lines, changes)) <==> CleanChanges(changes)
  {
    hide Clean, CleanChanges;
    UntouchedClean(lines, changes);
    AddedClean(changes);
    CleanJoin(Untouched(lines, changes), Added(changes));
  }

  // ---------- The POSIX block ----------

  /** A pointer into the block, as a distance in bytes from its start, or null. */
  type Pointer = Option<nat>

  /** The strings the pointers lead to, up to the first null one, in a block whose storage starts at `storageAt`. */
  function Strings(pointers: seq<Pointer>, storageAt: nat, storage: string): Option<seq<string>> {
    if |pointers| == 0 then None
    else if pointers[0].None? then Some([])
    else if !(storageAt <= pointers[0].value && pointers[0].value - storageAt < |storage|
              && NUL in storage[pointers[0].value - storageAt..]) then None
    else
      var rest := Strings(pointers[1..], storageAt, storage);
      if rest.None? then None else Some([TextAt(storage[pointers[0].value - storageAt..])] + rest.value)
  }

  /** What a packed block must be: pointers to the lines, a null one, and storage that fits behind them. */
  ghost predicate Packed(lines: seq<string>, pointers: seq<Pointer>, storage: string, pointerSize: nat) {
    var n := |lines|;
    && n < |pointers| && pointers[n] == None
    && (forall i :: 0 <= i < n ==> pointers[i] == Some((n + 1) * pointerSize + Offsets(lines)[i]))
    && storage == Flat(lines)
    && (n + 1) * pointerSize + |storage| <= |pointers| * pointerSize
  }

  lemma {:induction false} ReadsBackFrom(lines: seq<string>, pointers: seq<Pointer>, storage: string,
                                         pointerSize: nat, i: nat)
    requires Packed(lines, pointers, storage, pointerSize) && i <= |lines|
    ensures var read := Strings(pointers[i..], (|lines| + 1) * pointerSize, storage);
            && read.Some? && |read.value| == |lines| - i
            && forall j :: i <= j < |lines| ==> (read.value[j - i] == lines[j] <==> NUL !in lines[j])
    decreases |lines| - i
  {
    hide Flat, TextAt;
    if i < |lines| {
      OffsetStartsLine(lines, i);
      ReadsBackFrom(lines, pointers, storage, pointerSize, i + 1);
      assert pointers[i..][1..] == pointers[i + 1..];
    }
  }

  /** A packed block reads back as its lines, exactly if no line has a null in it. */
  lemma {:induction false} PosixReadsBack(lines: seq<string>, pointers: seq<Pointer>, storage: string, pointerSize: nat)
    requires Packed(lines, pointers, storage, pointerSize)
    ensures Strings(pointers, (|lines| + 1) * pointerSize, storage) == Some(lines) <==> Clean(lines)
  {
    hide Packed;
    ReadsBackFrom(lines, pointers, storage, pointerSize, 0);
    assert pointers[0..] == pointers;
    var read := Strings(pointers, (|lines| + 1) * pointerSize, storage).value;
    if Clean(lines) {
      assert forall j :: 0 <= j < |lines| ==> read[j - 0] == lines[j];
      assert read == lines;
    }
  }

  /** The texts of the lines of an environment. */
  function Texts(env: seq<string>): (ts: seq<string>)
    ensures |ts| == |env|
  {
    seq(|env|, i requires 0 <= i < |env| => TextAt(env[i]))
  }

  /** First the unchanged strings; `env` is the memory behind each pointer of the old environment. */
  method KeepUntouched(env: seq<string>, changes: seq<Change>) returns (valueStorage: string, resultIndices: seq<nat>)
    requires forall i :: 0 <= i < |env| ==> NUL in env[i]
    ensures valueStorage == Flat(Untouched(Texts(env), changes))
    ensures resultIndices == Offsets(Untouched(Texts(env), changes))
  {
    hide Flat, Offsets, TextAt, KeyOf, Changes;
    valueStorage, resultIndices := "", [];
    NoLines();
    ghost var texts := Texts(env);
    var i := 0;
    while i < |env|
      invariant 0 <= i <= |env|
      invariant valueStorage == Flat(Untouched(texts[..i], changes))
      invariant resultIndices == Offsets(Untouched(texts[..i], changes))
    {
      var key, lineLength := ParseEnvLine(env[i]);
      assert texts[..i + 1][..i] == texts[..i] && texts[..i + 1][i] == TextAt(env[i]);
      var changed := HasChange(changes, key);
      if !changed {
        OneMore(Untouched(texts[..i], changes), TextAt(env[i]));
        resultIndices := resultIndices + [|valueStorage|];
        valueStorage := valueStorage + env[i][..lineLength];
      }
      i := i + 1;
    }
    assert texts[..i] == texts;
  }

  /** Then all modified and new values. */
  method AppendAdded(changes: seq<Change>, ghost kept: seq<string>, keptStorage: string, keptIndices: seq<nat>)
    returns (valueStorage: string, resultIndices: seq<nat>)
    requires keptStorage == Flat(kept) && keptIndices == Offsets(kept)
    ensures valueStorage == Flat(kept + Added(changes)) && resultIndices == Offsets(kept + Added(changes))
  {
    hide Flat, Offsets, LineOf;
    valueStorage, resultIndices := keptStorage, keptIndices;
    assert kept + [] == kept;
    var i := 0;
    while i < |changes|
      invariant 0 <= i <= |changes|
      invariant valueStorage == Flat(kept + Added(changes[..i]))
      invariant resultIndices == Offsets(kept + Added(changes[..i]))
    {
      var c := changes[i];
      assert changes[..i + 1][..i] == changes[..i];
      if c.value != "" {
        ghost var before := valueStorage;
        resultIndices := resultIndices + [|valueStorage|];
        valueStorage := valueStorage + c.key;
        valueStorage := valueStorage + [EQUALS];
        valueStorage := valueStorage + c.value;
        valueStorage := valueStorage + [NUL];
        LinePushed(before, c);
        OneMore(kept + Added(changes[..i]), LineOf(c));
        assert kept + Added(changes[..i]) + [LineOf(c)] == kept + Added(changes[..i + 1]);
      }
      i := i + 1;
    }
    assert changes[..i] == changes;
  }

  lemma NoLines()
    ensures Flat([]) == "" && Offsets([]) == []
  {
  }

  lemma LinePushed(before: string, c: Change)
    ensures before + c.key + [EQUALS] + c.value + [NUL] == before + (LineOf(c) + [NUL])
  {
  }

  method AlterEnvironmentPosix(env: seq<string>, changes: seq<Change>, pointerSize: nat)
    returns (result: array<Pointer>, storage: string)
    requires pointerSize > 0 && forall i :: 0 <= i < |env| ==> NUL in env[i]
    ensures Packed(Altered(Texts(env), changes), result[..], storage, pointerSize)
    ensures var lines := Altered(Texts(env), changes);
            Strings(result[..], (|lines| + 1) * pointerSize, storage) == Some(lines) <==> CleanChanges(changes)
  {
    hide Flat, Offsets, Texts, Untouched, Added, Strings, Clean, CleanChanges;
    var valueStorage, resultIndices := KeepUntouched(env, changes);
    valueStorage, resultIndices := AppendAdded(changes, Untouched(Texts(env), changes), valueStorage, resultIndices);
    result := FillPointers(resultIndices, |valueStorage|, pointerSize);
    storage := valueStorage;
    TextsClean(env);
    AlteredClean(Texts(env), changes);
    PosixReadsBack(Altered(Texts(env), changes), result[..], storage, pointerSize);
  }

  lemma TextsClean(env: seq<string>)
    ensures Clean(Texts(env))
  {
  }

  method HasChange(changes: seq<Change>, key: string) returns (found: bool)
    ensures found == Changes(changes, key)
  {
    var i := 0;
    while i < |changes|
      invariant 0 <= i <= |changes|
      invariant forall j :: 0 <= j < i ==> changes[j].key != key
    {
      if changes[i].key == key {
        return true;
      }
      i := i + 1;
    }
    found := false;
  }

  lemma {:induction false} OneMore(lines: seq<string>, line: string)
    ensures Flat(lines + [line]) == Flat(lines) + (line + [NUL])
    ensures Offsets(lines + [line]) == Offsets(lines) + [|Flat(lines)|]
  {
    var more := lines + [line];
    assert more[..|more| - 1] == lines;
    forall i | 0 <= i <= |lines|
      ensures more[..i] == lines[..i]
    {
    }
    assert lines[..|lines|] == lines;
  }

  /** Allocates the block and fills in the pointers; the storage follows them. */
  method FillPointers(indices: seq<nat>, size: nat, pointerSize: nat) returns (result: array<Pointer>)
    requires pointerSize > 0
    ensures fresh(result) && result.Length == |indices| + 1 + (size + pointerSize - 1) / pointerSize
    ensures forall i :: 0 <= i < |indices| ==> result[i] == Some((|indices| + 1) * pointerSize + indices[i])
    ensures result[|indices|] == None
    ensures (|indices| + 1) * pointerSize + size <= result.Length * pointerSize
  {
    var pointerCountRequired := |indices| + 1 + (size + pointerSize - 1) / pointerSize;
    result := new Pointer[pointerCountRequired];
    var storageData := (|indices| + 1) * pointerSize;
    var i := 0;
    while i < |indices|
      invariant 0 <= i <= |indices|
      invariant forall j :: 0 <= j < i ==> result[j] == Some(storageData + indices[j])
    {
      result[i] := Some(storageData + indices[i]);
      i := i + 1;
    }
    result[|indices|] := None;
    RoundedUp(size, pointerSize);
    Distributes(|indices| + 1, (size + pointerSize - 1) / pointerSize, pointerSize);
  }

  lemma RoundedUp(size: nat, unit: nat)
    requires unit > 0
    ensures size <= (size + unit - 1) / unit * unit
  {
  }

  lemma Distributes(a: nat, b: nat, c: nat)
    ensures (a + b) * c == a * c + b * c
  {
  }

  // ---------- The Windows block ----------

  /** The lines of a block that ends with an empty one, if the memory holds such a block. */
  function Lines(block: string): Option<seq<string>>
    decreases |block|
  {
    if NUL !in block then None
    else if TextAt(block) == "" then Some([])
    else
      var rest := Lines(block[|TextAt(block)| + 1..]);
      if rest.None? then None else Some([TextAt(block)] + rest.value)
  }

  predicate NonEmpty(lines: seq<string>) {
    forall i :: 0 <= i < |lines| ==> lines[i] != ""
  }

  lemma {:induction false} FlatLines(lines: seq<string>, rest: string)
    requires Clean(lines) && NonEmpty(lines)
    ensures Lines(Flat(lines) + [NUL] + rest) == Some(lines)
    decreases |lines|
  {
    var block := Flat(lines) + [NUL] + rest;
    if |lines| == 0 {
      assert block == [] + [NUL] + rest && block[0] == NUL;
      TextOfLine("", rest);
    } else {
      var line, more := lines[0], lines[1..];
      assert lines == [line] + more;
      FlatFirst(line, more);
      var after := Flat(more) + [NUL] + rest;
      assert block == line + [NUL] + after;
      TextOfLine(line, after);
      assert block[|line|] == NUL && block[|line| + 1..] == after;
      FlatLines(more, rest);
    }
  }

  /** What is read from a block has no nulls in it and no empty lines. */
  lemma {:induction false} LinesClean(block: string)
    ensures Lines(block).Some? ==> Clean(Lines(block).value) && NonEmpty(Lines(block).value)
    decreases |block|
  {
    if NUL in block && TextAt(block) != "" {
      LinesClean(block[|TextAt(block)| + 1..]);
    }
  }

  /** The block the code makes of the lines: an additional null, and one more when there are none. */
  function Block(lines: seq<string>): string {
    Flat(lines) + (if |lines| == 0 then [NUL, NUL] else [NUL])
  }

  /** A block reads back as its lines, exactly if no line has a null in it. */
  lemma {:induction false} WindowsReadsBack(lines: seq<string>)
    requires NonEmpty(lines)
    ensures Lines(Block(lines)) == Some(lines) <==> Clean(lines)
  {
    LinesClean(Block(lines));
    if Clean(lines) {
      var rest := if |lines| == 0 then [NUL] else [];
      assert Block(lines) == Flat(lines) + [NUL] + rest;
      FlatLines(lines, rest);
    }
  }

  /** The altered lines are never empty when the old ones are not. */
  lemma {:induction false} AlteredNonEmpty(lines: seq<string>, changes: seq<Change>)
    requires NonEmpty(lines)
    ensures NonEmpty(Altered(lines, changes))
  {
    UntouchedNonEmpty(lines, changes);
    AddedNonEmpty(changes);
  }

  lemma {:induction false} UntouchedNonEmpty(lines: seq<string>, changes: seq<Change>)
    requires NonEmpty(lines)
    ensures NonEmpty(Untouched(lines, changes))
    decreases |lines|
  {
    if |lines| > 0 {
      UntouchedNonEmpty(lines[..|lines| - 1], changes);
    }
  }

  lemma {:induction false} AddedNonEmpty(changes: seq<Change>)
    ensures NonEmpty(Added(changes))
    decreases |changes|
  {
    if |changes| > 0 {
      AddedNonEmpty(changes[..|changes| - 1]);
    }
  }

  lemma HeadOf(block: string)
    requires Lines(block).Some?
    ensures NUL in block && (block[0] == NUL <==> TextAt(block) == "")
    ensures block[0] == NUL ==> Lines(block).value == []
    ensures block[0] != NUL ==>
              && |TextAt(block)| + 1 < |block|
              && Lines(block[|TextAt(block)| + 1..]).Some?
              && Lines(block).value == [TextAt(block)] + Lines(block[|TextAt(block)| + 1..]).value
  {
    var i := FirstIndex(block, NUL);
    assert block[0] == NUL ==> i == 0;
  }

  lemma FlatEnds(lines: seq<string>)
    ensures |lines| > 0 ==> |Flat(lines)| > 0 && Flat(lines)[|Flat(lines)| - 1] == NUL
  {
  }

  lemma {:induction false} FlatEmpty(lines: seq<string>)
    ensures Flat(lines) == "" <==> |lines| == 0
  {
    if |lines| > 0 {
      assert |Flat(lines)| > 0;
    }
  }

  method AppendLines(changes: seq<Change>, ghost kept: seq<string>, keptText: string) returns (result: string)
    requires keptText == Flat(kept)
    ensures result == Flat(kept + Added(changes))
  {
    hide Flat, LineOf;
    result := keptText;
    assert kept + [] == kept;
    var i := 0;
    while i < |changes|
      invariant 0 <= i <= |changes|
      invariant result == Flat(kept + Added(changes[..i]))
    {
      var c := changes[i];
      assert changes[..i + 1][..i] == changes[..i];
      if c.value != "" {
        ghost var before := result;
        result := result + c.key;
        result := result + [EQUALS];
        result := result + c.value;
        result := result + [NUL];
        LinePushed(before, c);
        OneMore(kept + Added(changes[..i]), LineOf(c));
        assert kept + Added(changes[..i]) + [LineOf(c)] == kept + Added(changes[..i + 1]);
      }
      i := i + 1;
    }
    assert changes[..i] == changes;
  }

  lemma OneMoreKept(done: seq<string>, line: string, changes: seq<Change>)
    ensures Flat(Untouched(done + [line], changes))
            == Flat(Untouched(done, changes)) + if Changes(changes, KeyOf(line)) then [] else line + [NUL]
  {
    hide KeyOf, Changes, Flat;
    assert (done + [line])[..|done|] == done;
    OneMore(Untouched(done, changes), line);
  }

  lemma Shifted(done: seq<string>, line: string, rest: seq<string>)
    ensures done + ([line] + rest) == done + [line] + rest
  {
  }

  lemma NothingUntouched(changes: seq<Change>)
    ensures Untouched([], changes) == []
  {
  }

  /** The lines of a block that no change speaks of, still packed. */
  method KeepLines(env: string, changes: seq<Change>) returns (result: string)
    requires Lines(env).Some?
    ensures result == Flat(Untouched(Lines(env).value, changes))
  {
    hide Flat, KeyOf, Changes, TextAt, Lines, Untouched, FirstIndex;
    result := "";
    ghost var lines := Lines(env).value;
    ghost var done: seq<string> := [];
    var curEnv := 0;
    NoLines();
    NothingUntouched(changes);
    assert env[0..] == env;
    HeadOf(env);
    while env[curEnv] != NUL
      invariant 0 <= curEnv < |env| && Lines(env[curEnv..]).Some?
      invariant lines == done + Lines(env[curEnv..]).value
      invariant result == Flat(Untouched(done, changes))
      decreases |env| - curEnv
    {
      HeadOf(env[curEnv..]);
      var key, lineLength := ParseEnvLine(env[curEnv..]);
      ghost var line := TextAt(env[curEnv..]);
      assert env[curEnv..][lineLength..] == env[curEnv + lineLength..];
      HeadOf(env[curEnv + lineLength..]);
      var changed := HasChange(changes, key);
      OneMoreKept(done, line, changes);
      if !changed {
        result := result + env[curEnv..][..lineLength];
      }
      Shifted(done, line, Lines(env[curEnv + lineLength..]).value);
      done := done + [line];
      curEnv := curEnv + lineLength;
    }
    HeadOf(env[curEnv..]);
    assert done == lines;
  }

  /** `env` is the memory from the start of the old block on. */
  method AlterEnvironmentWindows(env: string, changes: seq<Change>) returns (result: string)
    requires Lines(env).Some?
    ensures result == Block(Altered(Lines(env).value, changes))
    ensures Lines(result) == Some(Altered(Lines(env).value, changes)) <==> CleanChanges(changes)
    ensures |result| >= 2 && result[|result| - 2..] == [NUL, NUL]
  {
    hide Flat, Untouched, Added, Lines, Clean, CleanChanges, NonEmpty;
    LinesClean(env);
    AlteredClean(Lines(env).value, changes);
    AlteredNonEmpty(Lines(env).value, changes);
    WindowsReadsBack(Altered(Lines(env).value, changes));
    result := KeepLines(env, changes);
    result := AppendLines(changes, Untouched(Lines(env).value, changes), result);
    FlatEmpty(Altered(Lines(env).value, changes));
    FlatEnds(Altered(Lines(env).value, changes));
    if result == "" {
      result := result + [NUL];
    }
    result := result + [NUL];
  }
}
