/** bootargs.c: plan9.ini text, its lines, and the table they make. */
module BootConf {
  import opened Lists
  import opened NoteFrames

  type Text = seq<Byte>

  const NUL: Byte := 0
  const TAB: Byte := 9
  const NEWLINE: Byte := 10
  const CR: Byte := 13
  const SPACE: Byte := 32
  const HASH: Byte := 35
  const EQUALS: Byte := 61
  const MAXCONF: nat := 64

  // ----- text -----

  /** The C string at the start of a buffer. */
  function Cstring(s: seq<Byte>): Text {
    if s == [] || s[0] == NUL then [] else [s[0]] + Cstring(s[1..])
  }

  /** What the in-place pass should leave: no carriage returns, spaces for tabs. */
  function Filtered(s: Text): Text {
    if s == [] then []
    else if s[|s| - 1] == CR then Filtered(s[..|s| - 1])
    else Filtered(s[..|s| - 1]) + [if s[|s| - 1] == TAB then SPACE else s[|s| - 1]]
  }

  /** Up to the first c, or everything. */
  function Before(s: Text, c: Byte): (n: nat)
    ensures n <= |s| && (n < |s| ==> s[n] == c) && forall i :: 0 <= i < n ==> s[i] != c
  {
    if s == [] || s[0] == c then 0 else 1 + Before(s[1..], c)
  }

  /** getfields(text, line, max, 1, "\n"): runs of newlines separate, and the last field allowed takes all the rest. */
  function Lines(s: Text, max: nat): (ls: seq<Text>)
    ensures |ls| <= max
    decreases |s|
  {
    if s == [] || max == 0 then []
    else if s[0] == NEWLINE then Lines(s[1..], max)
    else if max == 1 then [s]
    else [s[..Before(s, NEWLINE)]] + Lines(s[Before(s, NEWLINE)..], max - 1)
  }

  lemma {:induction false} LinesNonempty(s: Text, max: nat)
    ensures forall l :: l in Lines(s, max) ==> l != []
    decreases |s|
  {
    if s != [] && max != 0 {
      if s[0] == NEWLINE { LinesNonempty(s[1..], max); }
      else if max > 1 { LinesNonempty(s[Before(s, NEWLINE)..], max - 1); }
    }
  }

  // ----- names -----

  function Lower(c: Byte): Byte { if 65 <= c <= 90 then c + 32 else c }

  /** cistrcmp(a, b) == 0 */
  predicate Same(a: Text, b: Text) { |a| == |b| && forall i :: 0 <= i < |a| ==> Lower(a[i]) == Lower(b[i]) }

  /** A line that sets a value: not a comment, and with an '='. */
  predicate Sets(l: Text) { l != [] && l[0] != HASH && Before(l, EQUALS) < |l| }

  function Key(l: Text): Text
    requires Sets(l)
  {
    l[..Before(l, EQUALS)]
  }

  function Val(l: Text): Text
    requires Sets(l)
  {
    l[Before(l, EQUALS) + 1..]
  }

  // ----- the table -----

  datatype Entry = Entry(name: Text, value: Text)

  type Table = seq<Entry>

  /** findconf: the first entry of that name, or the length. */
  function Find(t: Table, k: Text): (i: nat)
    ensures i <= |t| && (i < |t| ==> Same(t[i].name, k)) && forall j :: 0 <= j < i ==> !Same(t[j].name, k)
  {
    if t == [] || Same(t[0].name, k) then 0 else 1 + Find(t[1..], k)
  }

  /** addconf, with its drop when the table is full. */
  function Add(t: Table, k: Text, v: Text): Table {
    var i := Find(t, k);
    if i < |t| then t[i := t[i].(value := v)]
    else if |t| >= MAXCONF then t
    else t + [Entry(k, v)]
  }

  /** getconf */
  function Lookup(t: Table, k: Text): Option<Text> {
    var i := Find(t, k);
    if i < |t| then Some(t[i].value) else None
  }

  function AddLine(t: Table, l: Text): Table { if Sets(l) then Add(t, Key(l), Val(l)) else t }

  function AddLines(ls: seq<Text>): Table {
    if ls == [] then [] else AddLine(AddLines(ls[..|ls| - 1]), ls[|ls| - 1])
  }

  /** No two names equal ignoring case. */
  predicate NoTwins(t: Table) { forall i, j :: 0 <= i < j < |t| ==> !Same(t[i].name, t[j].name) }

  /** What a key should have: the text after the first '=' of the last line that sets it. */
  function LastSetting(ls: seq<Text>, k: Text): Option<Text> {
    if ls == [] then None
    else
      var l := ls[|ls| - 1];
      if Sets(l) && Same(Key(l), k) then Some(Val(l)) else LastSetting(ls[..|ls| - 1], k)
  }

  lemma SameIsEquivalence(a: Text, b: Text, c: Text)
    ensures Same(a, a) && (Same(a, b) ==> Same(b, a)) && (Same(a, b) && Same(b, c) ==> Same(a, c))
  {
  }

  lemma TwoNames(a: Text, k: Text, q: Text)
    requires Same(a, k) && Same(a, q)
    ensures Same(k, q)
  {
  }

  lemma FindUnique(t: Table, k: Text, i: nat)
    requires NoTwins(t) && i < |t| && Same(t[i].name, k)
    ensures Find(t, k) == i
  {
    var j := Find(t, k);
    if j < i {
      SameIsEquivalence(k, t[i].name, k);
      SameIsEquivalence(t[j].name, k, t[i].name);
      hide Same;
      assert false;
    }
  }

  lemma AddKeeps(t: Table, k: Text, v: Text)
    requires NoTwins(t)
    ensures NoTwins(Add(t, k, v)) && |Add(t, k, v)| <= |t| + 1
  {
    var i := Find(t, k);
    if i == |t| && |t| < MAXCONF {
      forall j | 0 <= j < |t| ensures !Same(t[j].name, k) {}
    }
    hide Same, Find;
  }

  /** With room, addconf sets its key and leaves every other alone. */
  lemma LookupAdd(t: Table, k: Text, v: Text, q: Text)
    requires NoTwins(t) && |t| < MAXCONF
    ensures Lookup(Add(t, k, v), q) == if Same(k, q) then Some(v) else Lookup(t, q)
  {
    var t', i, j := Add(t, k, v), Find(t, k), Find(t, q);
    AddKeeps(t, k, v);
    SameIsEquivalence(k, q, k);
    if Same(k, q) {
      assert Same(t'[i].name, q) by { SameIsEquivalence(t'[i].name, k, q); SameIsEquivalence(k, k, k); }
      hide Same, Find;
      FindUnique(t', q, i);
    } else {
      if j < |t| {
        assert i != j by {
          if i == j { TwoNames(t[i].name, k, q); }
        }
        hide Same;
        FindUnique(t', q, j);
      } else {
        forall n | 0 <= n < |t'| ensures !Same(t'[n].name, q) {
          if n < |t| { assert t'[n].name == t[n].name; }
        }
      }
    }
  }

  /** Line by line: no twins, never more entries than lines, so never full when a line is added. */
  lemma {:induction false} TableGrows(ls: seq<Text>)
    ensures NoTwins(AddLines(ls)) && |AddLines(ls)| <= |ls|
  {
    if ls != [] {
      TableGrows(ls[..|ls| - 1]);
      var t, l := AddLines(ls[..|ls| - 1]), ls[|ls| - 1];
      if Sets(l) { AddKeeps(t, Key(l), Val(l)); }
      hide NoTwins, Add, Sets;
    }
  }

  /** The table the code builds is a map: each key has the value of the last line that sets it, ignoring case. */
  lemma {:induction false} TableIsLastSetting(ls: seq<Text>, k: Text)
    requires |ls| <= MAXCONF
    ensures Lookup(AddLines(ls), k) == LastSetting(ls, k)
  {
    if ls != [] {
      var init, l := ls[..|ls| - 1], ls[|ls| - 1];
      TableIsLastSetting(init, k);
      TableGrows(init);
      if Sets(l) { LookupAdd(AddLines(init), Key(l), Val(l), k); }
      hide Lookup, Add, NoTwins, Same, Sets;
    }
  }

  // ----- the same in plain bytes -----

  /** One letter equals another ignoring case: the same byte, or A-Z and the a-z 32 above it. */
  predicate SameLetter(a: Byte, b: Byte) {
    a == b || (65 <= a <= 90 && b == a + 32) || (65 <= b <= 90 && a == b + 32)
  }

  lemma SameIs(a: Text, b: Text)
    ensures Same(a, b) <==> |a| == |b| && forall i :: 0 <= i < |a| ==> SameLetter(a[i], b[i])
  {
  }

  /** The line is key=value for a key equal to k ignoring case, with no '=' in it and no '#' first. */
  ghost predicate SetsTo(l: Text, k: Text, v: Text) {
    exists key: Text :: SetsBy(l, key, v) && |key| == |k| && forall i :: 0 <= i < |k| ==> SameLetter(key[i], k[i])
  }

  ghost predicate SetsKey(l: Text, k: Text) { exists v: Text :: SetsTo(l, k, v) }

  predicate SetsBy(l: Text, key: Text, v: Text) { l == key + [61] + v && 61 !in key && l[0] != 35 }

  /** A line that sets has just one key and one value: those around its first '='. */
  lemma SettingIs(l: Text, key: Text, v: Text)
    ensures SetsBy(l, key, v) <==> Sets(l) && key == Key(l) && v == Val(l)
  {
    if SetsBy(l, key, v) {
      FirstEquals(l, |key|);
    }
  }

  lemma {:induction false} FirstEquals(l: Text, n: nat)
    requires n < |l| && l[n] == 61 && forall i :: 0 <= i < n ==> l[i] != 61
    ensures Before(l, EQUALS) == n
  {
    if n > 0 { FirstEquals(l[1..], n - 1); }
  }

  lemma SetsToIs(l: Text, k: Text, v: Text)
    ensures SetsTo(l, k, v) <==> Sets(l) && Same(Key(l), k) && v == Val(l)
  {
    if Sets(l) {
      SettingIs(l, Key(l), Val(l));
      SameIs(Key(l), k);
    }
    if SetsTo(l, k, v) {
      var key: Text :| SetsBy(l, key, v) && |key| == |k| && forall i :: 0 <= i < |k| ==> SameLetter(key[i], k[i]);
      SettingIs(l, key, v);
      SameIs(key, k);
    }
  }

  /** Line i sets k to v, and no later line sets k. */
  ghost predicate LastAt(ls: seq<Text>, k: Text, v: Text, i: int) {
    0 <= i < |ls| && SetsTo(ls[i], k, v) && forall j :: i < j < |ls| ==> !SetsKey(ls[j], k)
  }

  /** getconf's answer: v exactly when some line key=v has the key and no later line has it. */
  lemma {:induction false} LookupIsLast(ls: seq<Text>, k: Text, v: Text)
    requires |ls| <= MAXCONF
    ensures Lookup(AddLines(ls), k) == Some(v) <==> exists i :: LastAt(ls, k, v, i)
  {
    TableIsLastSetting(ls, k);
    LastIs(ls, k, v);
    hide *;
  }

  lemma {:induction false} LastIs(ls: seq<Text>, k: Text, v: Text)
    ensures LastSetting(ls, k) == Some(v) <==> exists i :: LastAt(ls, k, v, i)
  {
    if ls == [] {
      return;
    }
    var n := |ls| - 1;
    var init, l := ls[..n], ls[n];
    LastIs(init, k, v);
    SetsToIs(l, k, v);
    SetsKeyIs(l, k);
    hide SetsTo, Same, SetsKey;
    if SetsKey(l, k) {
      if LastSetting(ls, k) == Some(v) {
        assert LastAt(ls, k, v, n);
      }
      if i :| LastAt(ls, k, v, i) {
        assert i == n;
      }
    } else {
      if i :| LastAt(init, k, v, i) { LastLonger(ls, k, v, i); }
      if i :| LastAt(ls, k, v, i) { LastShorter(ls, k, v, i); }
    }
  }

  lemma SetsKeyIs(l: Text, k: Text)
    ensures SetsKey(l, k) <==> Sets(l) && Same(Key(l), k)
  {
    if Sets(l) { SetsToIs(l, k, Val(l)); }
    if SetsKey(l, k) {
      var v: Text :| SetsTo(l, k, v);
      SetsToIs(l, k, v);
    }
  }

  lemma LastLonger(ls: seq<Text>, k: Text, v: Text, i: int)
    requires ls != [] && LastAt(ls[..|ls| - 1], k, v, i) && !SetsKey(ls[|ls| - 1], k)
    ensures LastAt(ls, k, v, i)
  {
    hide SetsTo, SetsKey;
    forall j | i < j < |ls| ensures !SetsKey(ls[j], k) {
      if j < |ls| - 1 { assert ls[..|ls| - 1][j] == ls[j]; }
    }
  }

  lemma LastShorter(ls: seq<Text>, k: Text, v: Text, i: int)
    requires ls != [] && LastAt(ls, k, v, i) && !SetsKey(ls[|ls| - 1], k) && !SetsTo(ls[|ls| - 1], k, v)
    ensures LastAt(ls[..|ls| - 1], k, v, i)
  {
    hide SetsTo, SetsKey;
    var init := ls[..|ls| - 1];
    assert i < |init|;
    forall j | i < j < |init| ensures !SetsKey(init[j], k) {
      assert init[j] == ls[j];
    }
  }

  /** Newlines separate, runs of them as one; the last field allowed takes all the rest. */
  lemma LinesSplit(a: Text, b: Text, max: nat)
    ensures Lines([], max) == [] && Lines([10] + b, max) == Lines(b, max)
    ensures a != [] && 10 !in a && max >= 1 ==> Lines(a, max) == [a]
    ensures a != [] && 10 !in a && max >= 2 ==> Lines(a + [10] + b, max) == [a] + Lines(b, max - 1)
    ensures a != [] && a[0] != 10 ==> Lines(a, 1) == [a]
  {
    assert ([10] + b)[1..] == b;
    if a != [] && 10 !in a && max >= 1 {
      WholeLine(a, []);
      assert a + [] == a && a[..|a|] == a && a[|a|..] == [];
    }
    if a != [] && 10 !in a && max >= 2 {
      var s := a + [10] + b;
      assert s == a + ([10] + b);
      WholeLine(a, [10] + b);
      assert s[..|a|] == a && s[|a|..] == [10] + b;
    }
  }

  lemma {:induction false} WholeLine(a: Text, b: Text)
    requires 10 !in a && (b == [] || b[0] == 10)
    ensures Before(a + b, NEWLINE) == |a|
  {
    if a == [] {
      assert a + b == b;
    } else {
      assert (a + b)[1..] == a[1..] + b;
      WholeLine(a[1..], b);
    }
  }

  /** Byte by byte: 13 goes, 9 becomes 32. */
  lemma FilterIs(s: Text, c: Byte)
    ensures Filtered([]) == []
    ensures Filtered(s + [c]) == Filtered(s) + if c == 13 then [] else if c == 9 then [32] else [c]
  {
    assert (s + [c])[..|s|] == s;
  }

  /** addconf's drop is never taken: whenever a line is added the table has room. */
  lemma NeverFull(s: Text, n: nat)
    requires n < |Lines(s, MAXCONF)|
    ensures |AddLines(Lines(s, MAXCONF)[..n])| < MAXCONF
  {
    TableGrows(Lines(s, MAXCONF)[..n]);
  }
}
