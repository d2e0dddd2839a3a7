/** Write-back conservation with prefetch off: every line that becomes dirty is written back once
    or is still dirty, and every write-back goes to the base address of a line that was stored to. */
module Conservation {
  import opened Words
  import opened PlruTree
  import opened Hierarchy
  import opened CacheCost
  import opened WorkingSet
  import opened LineCount

  // ---- What one access does to the dirty lines ----

  /** A clean-to-dirty transition of a store hit, or the dirty install of a store miss. */
  function Dirtied(m: Mem, r: Req): nat
    requires Shape(m) && m.Cached?
  {
    var w := WayOf(m.g, m.c, r.addr);
    if !r.isWrite then 0
    else if w >= 0 then (if SetAt(m.g, m.c, r.addr).lines[w].dirty then 0 else 1)
    else 1
  }

  /** The address written back by the access, if any: what the WriteBack phase drives. */
  function Flushed(m: Mem, r: Req): Option<Word>
    requires Shape(m) && m.Cached?
  {
    if Resident(m.g, m.c, r.addr) then None else DirtyVictim(m.g, m.c, r.addr)
  }

  /** Dirty lines are valid: true of a cold cache and kept by every access. */
  predicate Tidy(c: CacheState) {
    forall i, w | 0 <= i < |c.sets| && 0 <= w < |c.sets[i].lines| ::
      c.sets[i].lines[w].dirty ==> c.sets[i].lines[w].valid
  }

  lemma SetConserves(g: Geometry, s: CacheSet, tag: nat, isWrite: bool)
    requires SetShape(g, s)
    requires forall w | 0 <= w < |s.lines| :: s.lines[w].dirty ==> s.lines[w].valid
    ensures var way := FindWay(s.lines, tag, 0);
      var dirtied := if !isWrite then 0 else if way >= 0 then (if s.lines[way].dirty then 0 else 1) else 1;
      var flushed := if way < 0 && Dirty(s.lines[ChooseVictim(g, s)]) then 1 else 0;
      CountLines(Dirty, SetAccess(g, s, tag, isWrite).lines) + flushed == CountLines(Dirty, s.lines) + dirtied
    ensures forall w | 0 <= w < |s.lines| ::
              SetAccess(g, s, tag, isWrite).lines[w].dirty ==> SetAccess(g, s, tag, isWrite).lines[w].valid
  {
    var way := FindWay(s.lines, tag, 0);
    var w: nat := if way >= 0 then way else ChooseVictim(g, s);
    CountLinesUpdate(Dirty, s.lines, w, SetAccess(g, s, tag, isWrite).lines[w]);
    assert SetAccess(g, s, tag, isWrite).lines == s.lines[w := SetAccess(g, s, tag, isWrite).lines[w]];
    hide CountLines, Touch, Perfect, Ways;
  }

  lemma AccessConserves(m: Mem, r: Req)
    requires Shape(m) && Quiet(m) && m.Cached? && Tidy(m.c)
    ensures var n := Access(m, r.addr, r.isWrite);
      && n.Cached? && n.g == m.g && Tidy(n.c)
      && CountSets(Dirty, n.c.sets) + (if Flushed(m, r).Some? then 1 else 0)
         == CountSets(Dirty, m.c.sets) + Dirtied(m, r)
  {
    var i := IndexOf(m.g, r.addr);
    AccessOnSets(m.g, m.c, m.backing, r.addr, r.isWrite);
    SetConserves(m.g, m.c.sets[i], TagOf(m.g, r.addr), r.isWrite);
    CountSetsUpdate(Dirty, m.c.sets, i, SetAccess(m.g, m.c.sets[i], TagOf(m.g, r.addr), r.isWrite));
    hide Access, CountSets, CountLines, SetAccess, IndexOf, TagOf, FindWay, ChooseVictim, Quiet;
  }

  // ---- Runs ----

  function DirtiedBy(m: Mem, reqs: seq<Req>): nat
    requires Shape(m) && Quiet(m) && m.Cached?
  {
    if |reqs| == 0 then 0
    else
      RunStays(m, reqs[..|reqs| - 1]);
      DirtiedBy(m, reqs[..|reqs| - 1]) + Dirtied(CacheRun(m, reqs[..|reqs| - 1]), reqs[|reqs| - 1])
  }

  /** The addresses written back, in order. */
  function FlushedBy(m: Mem, reqs: seq<Req>): seq<Word>
    requires Shape(m) && Quiet(m) && m.Cached?
  {
    if |reqs| == 0 then []
    else
      RunStays(m, reqs[..|reqs| - 1]);
      var f := Flushed(CacheRun(m, reqs[..|reqs| - 1]), reqs[|reqs| - 1]);
      FlushedBy(m, reqs[..|reqs| - 1]) + (if f.Some? then [f.value] else [])
  }

  /** At every idle point: transitions to dirty == write-backs issued + dirty lines gained. */
  lemma {:induction false} WriteBackConservation(m: Mem, reqs: seq<Req>)
    requires Shape(m) && Quiet(m) && m.Cached? && Tidy(m.c)
    ensures var r := CacheRun(m, reqs);
      && r.Cached? && r.g == m.g && Tidy(r.c)
      && CountSets(Dirty, m.c.sets) + DirtiedBy(m, reqs) == |FlushedBy(m, reqs)| + CountSets(Dirty, r.c.sets)
  {
    if |reqs| > 0 {
      hide Shape, Quiet, Tidy, Access, CountSets, Dirtied, Flushed;
      var front := reqs[..|reqs| - 1];
      WriteBackConservation(m, front);
      AccessConserves(CacheRun(m, front), reqs[|reqs| - 1]);
    }
  }

  // ---- Where write-backs go ----

  /** Some store among the requests was to the line of set i with this tag. */
  predicate Stored(g: Geometry, i: nat, tag: nat, reqs: seq<Req>) {
    exists k :: 0 <= k < |reqs| && reqs[k].isWrite && IndexOf(g, reqs[k].addr) == i && TagOf(g, reqs[k].addr) == tag
  }

  predicate Sourced(g: Geometry, c: CacheState, reqs: seq<Req>) {
    forall i, w | 0 <= i < |c.sets| && 0 <= w < |c.sets[i].lines| ::
      Dirty(c.sets[i].lines[w]) ==> Stored(g, i, c.sets[i].lines[w].tag, reqs)
  }

  lemma StoredLater(g: Geometry, i: nat, tag: nat, reqs: seq<Req>, r: Req)
    ensures Stored(g, i, tag, reqs) ==> Stored(g, i, tag, reqs + [r])
    ensures r.isWrite ==> Stored(g, IndexOf(g, r.addr), TagOf(g, r.addr), reqs + [r])
  {
    hide IndexOf, TagOf;
    if Stored(g, i, tag, reqs) {
      var k :| 0 <= k < |reqs| && reqs[k].isWrite && IndexOf(g, reqs[k].addr) == i && TagOf(g, reqs[k].addr) == tag;
      assert (reqs + [r])[k] == reqs[k];
    }
    assert (reqs + [r])[|reqs|] == r;
  }

  /** A line that is dirty after an access was dirty before, or is the line just stored to. */
  lemma DirtyAfter(g: Geometry, s: CacheSet, tag: nat, isWrite: bool, w: nat)
    requires SetShape(g, s) && w < |s.lines|
    ensures var L := SetAccess(g, s, tag, isWrite).lines[w];
      Dirty(L) ==> (Dirty(s.lines[w]) && L.tag == s.lines[w].tag) || (isWrite && L.tag == tag)
  {
    hide Touch, Perfect, Ways;
  }

  lemma SourcedStep(m: Mem, reqs: seq<Req>, r: Req)
    requires Shape(m) && Quiet(m) && m.Cached? && Sourced(m.g, m.c, reqs)
    ensures var n := Access(m, r.addr, r.isWrite); n.Cached? && n.g == m.g && Sourced(m.g, n.c, reqs + [r])
  {
    AccessOnSets(m.g, m.c, m.backing, r.addr, r.isWrite);
    var n := Access(m, r.addr, r.isWrite);
    var j := IndexOf(m.g, r.addr);
    hide Access, SetAccess, Stored, SetShape;
    forall i, w | 0 <= i < |n.c.sets| && 0 <= w < |n.c.sets[i].lines| && Dirty(n.c.sets[i].lines[w])
      ensures Stored(m.g, i, n.c.sets[i].lines[w].tag, reqs + [r])
    {
      if i == j { DirtyAfterAt(m, i, w, r); }
      StoredLater(m.g, i, n.c.sets[i].lines[w].tag, reqs, r);
    }
  }

  lemma DirtyAfterAt(m: Mem, i: nat, w: nat, r: Req)
    requires Shape(m) && m.Cached? && i == IndexOf(m.g, r.addr)
    requires w < |SetAccess(m.g, m.c.sets[i], TagOf(m.g, r.addr), r.isWrite).lines|
    ensures w < |m.c.sets[i].lines|
    ensures var L := SetAccess(m.g, m.c.sets[i], TagOf(m.g, r.addr), r.isWrite).lines[w];
      Dirty(L) ==> (Dirty(m.c.sets[i].lines[w]) && L.tag == m.c.sets[i].lines[w].tag)
                   || (r.isWrite && L.tag == TagOf(m.g, r.addr))
  {
    assert w < |m.c.sets[i].lines| by { hide Touch, FindWay, ChooseVictim, IndexOf, TagOf; }
    DirtyAfter(m.g, m.c.sets[i], TagOf(m.g, r.addr), r.isWrite, w);
    hide SetAccess, TagOf, IndexOf;
  }

  lemma {:induction false} RunSourced(m: Mem, reqs: seq<Req>)
    requires Shape(m) && Quiet(m) && m.Cached? && Sourced(m.g, m.c, [])
    ensures var r := CacheRun(m, reqs); r.Cached? && r.g == m.g && Sourced(m.g, r.c, reqs)
  {
    hide Shape, Quiet, Sourced, Access;
    if |reqs| > 0 {
      var front := reqs[..|reqs| - 1];
      RunSourced(m, front);
      assert reqs == front + [reqs[|reqs| - 1]];
      SourcedStep(CacheRun(m, front), front, reqs[|reqs| - 1]);
    } else {
      assert reqs == [];
    }
  }

  /** From a cold cache, an access writes back the base address of a line stored to earlier. */
  lemma FlushAddress(m: Mem, reqs: seq<Req>, r: Req)
    requires Shape(m) && Quiet(m) && m.Cached? && Cold(m.c)
    ensures var n := CacheRun(m, reqs); n.Cached? && n.g == m.g
    ensures var f := Flushed(CacheRun(m, reqs), r);
      f.Some? ==> exists k :: 0 <= k < |reqs| && reqs[k].isWrite && f.value == LineAddrOf(m.g, reqs[k].addr)
  {
    assert Sourced(m.g, m.c, []) by { hide Shape, Quiet; }
    RunSourced(m, reqs);
    var n := CacheRun(m, reqs);
    var f := Flushed(n, r);
    if f.Some? {
      var i := IndexOf(m.g, r.addr);
      var tag := n.c.sets[i].lines[ChooseVictim(n.g, n.c.sets[i])].tag;
      assert f == Some(AddrOf(m.g, i, tag)) && Stored(m.g, i, tag, reqs) by {
        hide Shape, Quiet, CacheRun, Stored, AddrOf, IndexOf, ChooseVictim, Resident;
      }
      hide Shape, Quiet, CacheRun, Flushed, Sourced, IndexOf, TagOf, AddrOf, LineAddrOf, Cold;
      var k :| 0 <= k < |reqs| && reqs[k].isWrite && IndexOf(m.g, reqs[k].addr) == i && TagOf(m.g, reqs[k].addr) == tag;
      AddrOfLine(m.g, reqs[k].addr);
    }
  }
}
