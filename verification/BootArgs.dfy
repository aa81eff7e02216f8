/** bootargs.c as it runs: the buffer compacted in place, and the two arrays of the table. */
module BootArgs {
  import opened Lists
  import opened NoteFrames
  import opened BootConf

  const BOOTARGSLEN: nat := 0x2000

  class Conf {
    const confname: array<Text>
    const confval: array<Text>
    var nconf: nat

    constructor ()
      ensures Valid() && Entries() == [] && fresh(confname) && fresh(confval)
    {
      confname := new Text[MAXCONF](_ => []);
      confval := new Text[MAXCONF](_ => []);
      nconf := 0;
    }

    ghost predicate Valid()
      reads this
    {
      confname.Length == MAXCONF && confval.Length == MAXCONF && confname != confval && nconf <= MAXCONF
    }

    ghost function Entries(): Table
      requires Valid()
      reads this, confname, confval
    {
      var n, names, values := nconf, confname[..nconf], confval[..nconf];
      seq(n, i requires 0 <= i < n => Entry(names[i], values[i]))
    }

    /** findconf: -1 when the name is not there. */
    method Findconf(k: Text) returns (i: int)
      requires Valid()
      ensures i == (if Find(Entries(), k) < nconf then Find(Entries(), k) else -1)
    {
      i := 0;
      while i < nconf
        invariant 0 <= i <= nconf && forall j :: 0 <= j < i ==> !Same(Entries()[j].name, k)
      {
        if Same(confname[i], k) {
          assert Same(Entries()[i].name, k);
          return;
        }
        i := i + 1;
      }
      i := -1;
    }

    /** addconf, with its drop when the table is full. */
    method Addconf(k: Text, v: Text)
      requires Valid()
      modifies this`nconf, confname, confval
      ensures Valid() && Entries() == Add(old(Entries()), k, v)
    {
      ghost var t := Entries();
      var i := Findconf(k);
      if i < 0 {
        if nconf >= MAXCONF {
          return;
        }
        i := nconf;
        nconf := nconf + 1;
        confname[i] := k;
      }
      confval[i] := v;
      assert Entries() == Add(t, k, v);
    }

    /** getconf */
    method Getconf(name: Text) returns (v: Option<Text>)
      requires Valid()
      ensures v == Lookup(Entries(), name)
    {
      var i := Findconf(name);
      if i < 0 {
        return None;
      }
      return Some(confval[i]);
    }

    /** The lines loop of bootargsinit. */
    method Addlines(line: seq<Text>)
      requires Valid() && Entries() == [] && (forall l :: l in line ==> l != []) && |line| <= MAXCONF
      modifies this`nconf, confname, confval
      ensures Valid() && Entries() == AddLines(line)
    {
      var i := 0;
      while i < |line|
        invariant 0 <= i <= |line| && Valid() && Entries() == AddLines(line[..i])
      {
        assert line[..i + 1][..i] == line[..i];
        ghost var t := Entries();
        var l := line[i];
        assert l in line;
        i := i + 1;
        if l[0] == HASH {
          continue;
        }
        var v := Before(l, EQUALS);
        if v == |l| {
          continue;
        }
        Addconf(l[..v], l[v + 1..]);
      }
      assert line[..i] == line;
    }

    /** bootargsinit on the buffer U-Boot filled. */
    method Bootargsinit(cp: array<Byte>)
      requires Valid() && Entries() == [] && cp.Length == BOOTARGSLEN
      modifies cp, this`nconf, confname, confval
      ensures Valid()
      ensures var text := Cstring(old(cp[..])[BOOTARGSLEN - 1 := NUL]);
        Entries() == if text == [] || text[0] >= 0x80 then [] else AddLines(Lines(Filtered(text), MAXCONF))
    {
      cp[BOOTARGSLEN - 1] := 0;
      ghost var s := cp[..];
      assert s == old(cp[..])[BOOTARGSLEN - 1 := NUL];
      if cp[0] == 0 || cp[0] >= 0x80 {
        return;
      }
      Strip(cp);
      LinesNonempty(Cstring(cp[..]), MAXCONF);
      Addlines(Lines(Cstring(cp[..]), MAXCONF));
    }
  }

  /** Strip carriage returns and turn tabs to spaces, in place. */
  method Strip(cp: array<Byte>)
    requires cp.Length > 0 && cp[cp.Length - 1] == NUL
    modifies cp
    ensures Cstring(cp[..]) == Filtered(Cstring(old(cp[..])))
  {
    ghost var s := cp[..];
    var p, q := 0, 0;
    while cp[q] != NUL
      invariant 0 <= p <= q < cp.Length && |s| == cp.Length && s[cp.Length - 1] == NUL
      invariant (forall i :: q <= i < cp.Length ==> cp[i] == s[i]) && cp[..p] == Filtered(s[..q])
      invariant forall i :: 0 <= i < q ==> s[i] != NUL
      invariant forall i :: 0 <= i < p ==> cp[i] != NUL
      decreases cp.Length - q
    {
      FilteredNext(s, q);
      ghost var done := cp[..p];
      if cp[q] == CR {
        q := q + 1;
        continue;
      }
      if cp[q] == TAB {
        cp[q] := SPACE;
      }
      cp[p] := cp[q];
      p := p + 1;
      q := q + 1;
      assert cp[..p] == done + [cp[p - 1]];
    }
    CstringIs(s, q);
    cp[p] := NUL;
    CstringIs(cp[..], p);
  }

  lemma FilteredNext(s: seq<Byte>, q: nat)
    requires q < |s|
    ensures Filtered(s[..q + 1]) ==
      Filtered(s[..q]) + (if s[q] == CR then [] else [if s[q] == TAB then SPACE else s[q]])
  {
    assert s[..q + 1][..q] == s[..q];
  }

  lemma {:induction false} CstringIs(s: seq<Byte>, n: nat)
    requires n < |s| && s[n] == NUL && forall i :: 0 <= i < n ==> s[i] != NUL
    ensures Cstring(s) == s[..n]
  {
    if n > 0 {
      CstringIs(s[1..], n - 1);
      assert s[..n] == [s[0]] + s[1..][..n - 1];
    }
  }

  /** After bootargsinit, getconf gives the last setting of a key in the file, ignoring case. */
  method GetconfAfterInit(c: Conf, cp: array<Byte>, name: Text) returns (v: Option<Text>)
    requires c.Valid() && c.Entries() == [] && cp.Length == BOOTARGSLEN
    modifies cp, c`nconf, c.confname, c.confval
    ensures var text := Cstring(old(cp[..])[BOOTARGSLEN - 1 := NUL]);
      v == if text == [] || text[0] >= 0x80 then None else LastSetting(Lines(Filtered(text), MAXCONF), name)
    ensures var text := Cstring(old(cp[..])[0x1FFF := 0]);
      forall u: Text :: v == Some(u) <==>
        text != [] && text[0] < 128 && exists i :: LastAt(Lines(Filtered(text), 64), name, u, i)
  {
    ghost var text := Cstring(cp[..][BOOTARGSLEN - 1 := NUL]);
    c.Bootargsinit(cp);
    v := c.Getconf(name);
    TableIsLastSetting(Lines(Filtered(text), MAXCONF), name);
    TableIsLastSetting([], name);
    forall u: Text
      ensures Lookup(AddLines(Lines(Filtered(text), 64)), name) == Some(u) <==>
        exists i :: LastAt(Lines(Filtered(text), 64), name, u, i)
    {
      LookupIsLast(Lines(Filtered(text), 64), name, u);
    }
  }
}
