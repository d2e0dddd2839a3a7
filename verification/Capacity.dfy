/** Empty ways, with prefetch off: a miss fills the lowest empty way of its set and evicts nothing, so a
    set that is not full keeps what it holds, and from a cold cache a request hits exactly when its line
    was touched before, as long as the set has room. */
module Capacity {
  import opened Words
  import opened PlruTree
  import opened Hierarchy
  import opened CacheCost
  import opened WorkingSet
  import opened LineCount

  // ---- The empty way ----

  /** Way w is the lowest empty one. */
  predicate LowestEmpty(lines: seq<Line>, w: nat) {
    w < |lines| && !lines[w].valid && forall v | 0 <= v < w :: lines[v].valid
  }

  lemma {:induction false} FirstInvalidIs(lines: seq<Line>, from: nat, w: nat)
    requires LowestEmpty(lines, w) && from <= w
    ensures FirstInvalid(lines, from) == w
    decreases w - from
  {
    if from < w { FirstInvalidIs(lines, from + 1, w); }
  }

  /** A demand miss that no pending prefetch covers fills the lowest empty way of its set, prefetching or
      not; a prefetch reserves the lowest empty way of its own. */
  lemma MissTakesEmpty(g: Geometry, c: CacheState, addr: Word, isWrite: bool, w: nat)
    requires CacheShape(g, c) && !Resident(g, c, addr) && LowestEmpty(SetAt(g, c, addr).lines, w)
    ensures var d := Begin(g, c, addr, isWrite);
      d.sets == c.sets && (d.phase.PrefetchWait? || (d.phase.MissFetch? && d.victimWay == w))
  {
    FirstInvalidIs(SetAt(g, c, addr).lines, 0, w);
    hide SetShape, IndexOf, TagOf, LineAddrOf, FindWay, MaybeStartPrefetch, AddrOf;
  }

  lemma PrefetchTakesEmpty(g: Geometry, c: CacheState, target: Word, chain: nat, w: nat)
    requires CacheShape(g, c) && !Resident(g, c, target) && LowestEmpty(SetAt(g, c, target).lines, w)
    ensures var d := Queue(g, c, target, chain);
      d.pfActive && d.pfAddr == target && d.pfWay == w && d.pfChain == chain && d.sets == c.sets
  {
    FirstInvalidIs(SetAt(g, c, target).lines, 0, w);
    hide SetShape, IndexOf, TagOf, FindWay;
  }

  lemma EmptyVictim(g: Geometry, s: CacheSet, w: nat)
    requires SetShape(g, s) && LowestEmpty(s.lines, w)
    ensures ChooseVictim(g, s) == w
  {
    FirstInvalidIs(s.lines, 0, w);
  }

  /** Filling an empty way keeps every line where it is. */
  lemma FillEmpty(g: Geometry, s: CacheSet, tag: nat, isWrite: bool, w: nat)
    requires SetShape(g, s) && !Hits(s, tag) && LowestEmpty(s.lines, w)
    ensures SetAccess(g, s, tag, isWrite).lines == s.lines[w := Line(true, isWrite, false, tag)]
    ensures Hits(SetAccess(g, s, tag, isWrite), tag)
    ensures forall u | Hits(s, u) :: Hits(SetAccess(g, s, tag, isWrite), u)
  {
    var L := Line(true, isWrite, false, tag);
    EmptyVictim(g, s, w);
    forall u | Hits(s, u) ensures FindWay(s.lines[w := L], u, 0) >= 0 { FillKeepsLines(s.lines, u, 0, w, L); }
    FindWayIs(s.lines[w := L], tag, 0, w);
    hide FindWay, SetShape, Touch, ChooseVictim;
  }

  /** A whole access that misses while its set has an empty way fills the lowest one, and every line that
      was resident anywhere stays resident. */
  lemma FillsEmptyWay(m: Mem, r: Req, w: nat)
    requires Shape(m) && Quiet(m) && m.Cached? && !Resident(m.g, m.c, r.addr)
    requires LowestEmpty(SetAt(m.g, m.c, r.addr).lines, w)
    ensures var n := Access(m, r.addr, r.isWrite); var i := IndexOf(m.g, r.addr);
      && n.Cached? && n.g == m.g && n.c.sets == m.c.sets[i := n.c.sets[i]]
      && n.c.sets[i].lines == m.c.sets[i].lines[w := Line(true, r.isWrite, false, TagOf(m.g, r.addr))]
      && Resident(n.g, n.c, r.addr)
      && forall a: Word | Resident(m.g, m.c, a) :: Resident(n.g, n.c, a)
  {
    var i, tag := IndexOf(m.g, r.addr), TagOf(m.g, r.addr);
    AccessOnSets(m.g, m.c, m.backing, r.addr, r.isWrite);
    FillEmpty(m.g, m.c.sets[i], tag, r.isWrite, w);
    StillResident(m.g, m.c, Access(m, r.addr, r.isWrite).c, r.addr);
    hide Access, SetAccess, TagOf, IndexOf, Quiet, SetShape, FindWay;
    assert m.c.sets[i := SetAccess(m.g, m.c.sets[i], tag, r.isWrite)][i] == SetAccess(m.g, m.c.sets[i], tag, r.isWrite);
  }

  lemma StillResident(g: Geometry, c: CacheState, d: CacheState, addr: Word)
    requires CacheShape(g, c) && CacheShape(g, d)
    requires var i := IndexOf(g, addr);
      && d.sets == c.sets[i := d.sets[i]] && Hits(d.sets[i], TagOf(g, addr))
      && forall u | Hits(c.sets[i], u) :: Hits(d.sets[i], u)
    ensures Resident(g, d, addr) && forall a: Word | Resident(g, c, a) :: Resident(g, d, a)
  {
    hide SetShape, IndexOf, TagOf, FindWay;
    var i := IndexOf(g, addr);
    forall a: Word | Resident(g, c, a) ensures Resident(g, d, a) {
      if IndexOf(g, a) == i { assert Hits(c.sets[i], TagOf(g, a)); }
    }
  }

  // ---- Room in a set ----

  predicate Filled(L: Line) { L.valid }

  /** The lines in use in set s. */
  function InUse(s: CacheSet): nat { CountLines(Filled, s.lines) }

  lemma {:induction false} FullCount(lines: seq<Line>)
    requires forall v | 0 <= v < |lines| :: lines[v].valid
    ensures CountLines(Filled, lines) == |lines|
  {
    if |lines| > 0 { FullCount(lines[..|lines| - 1]); }
  }

  /** The lines t are resident, and at most `spare` others. */
  predicate Holds(s: CacheSet, t: set<nat>, spare: nat) {
    (forall tag | tag in t :: Hits(s, tag)) && InUse(s) <= spare + |t|
  }

  lemma HitHolds(g: Geometry, s: CacheSet, t: set<nat>, spare: nat, tag: nat, isWrite: bool)
    requires SetShape(g, s) && Holds(s, t, spare) && Hits(s, tag)
    ensures Holds(SetAccess(g, s, tag, isWrite), t + {tag}, spare)
    ensures InUse(SetAccess(g, s, tag, isWrite)) == InUse(s)
  {
    var w := FindWay(s.lines, tag, 0);
    var s' := SetAccess(g, s, tag, isWrite);
    forall u ensures FindWay(s'.lines, u, 0) == FindWay(s.lines, u, 0) {
      HitKeepsLines(s.lines, u, 0, w, s'.lines[w]);
    }
    CountLinesUpdate(Filled, s.lines, w, s'.lines[w]);
    assert s'.lines == s.lines[w := s'.lines[w]];
    assert |t + {tag}| >= |t| by { SubsetSize(t, t + {tag}); }
    hide FindWay, SetShape, Touch, CountLines;
  }

  lemma MissHolds(g: Geometry, s: CacheSet, t: set<nat>, spare: nat, tag: nat, isWrite: bool)
    requires SetShape(g, s) && Holds(s, t, spare) && !Hits(s, tag) && spare + |t| < g.WayCount()
    ensures Holds(SetAccess(g, s, tag, isWrite), t + {tag}, spare)
  {
    var w := FirstInvalid(s.lines, 0);
    if w < 0 { FullCount(s.lines); }
    assert LowestEmpty(s.lines, w);
    var L := Line(true, isWrite, false, tag);
    FillEmpty(g, s, tag, isWrite, w);
    CountLinesUpdate(Filled, s.lines, w, L);
    assert tag !in t;
    assert |t + {tag}| == |t| + 1;
    hide FindWay, SetAccess, CountLines, LowestEmpty, Hits;
  }

  lemma AccessHolds(g: Geometry, s: CacheSet, t: set<nat>, spare: nat, tag: nat, isWrite: bool)
    requires SetShape(g, s) && Holds(s, t, spare) && spare + |t + {tag}| <= g.WayCount()
    ensures Holds(SetAccess(g, s, tag, isWrite), t + {tag}, spare)
  {
    hide SetShape, SetAccess, Hits, InUse;
    if Hits(s, tag) {
      HitHolds(g, s, t, spare, tag, isWrite);
    } else {
      assert tag !in t;
      assert |t + {tag}| == |t| + 1;
      MissHolds(g, s, t, spare, tag, isWrite);
    }
  }

  // ---- A whole cache ----

  predicate HoldsAt(g: Geometry, m: Mem, i: nat, t: set<nat>, spare: nat) {
    m.Cached? && m.g == g && i < |m.c.sets| && Holds(m.c.sets[i], t, spare)
  }

  lemma HoldStep(m: Mem, i: nat, t: set<nat>, spare: nat, r: Req)
    requires Shape(m) && Quiet(m) && m.Cached? && HoldsAt(m.g, m, i, t, spare)
    requires IndexOf(m.g, r.addr) == i ==> spare + |t + {TagOf(m.g, r.addr)}| <= m.g.WayCount()
    ensures HoldsAt(m.g, Access(m, r.addr, r.isWrite), i,
                    if IndexOf(m.g, r.addr) == i then t + {TagOf(m.g, r.addr)} else t, spare)
  {
    AccessOnSets(m.g, m.c, m.backing, r.addr, r.isWrite);
    if IndexOf(m.g, r.addr) == i { AccessHolds(m.g, m.c.sets[i], t, spare, TagOf(m.g, r.addr), r.isWrite); }
    hide Access, Holds, SetAccess, TagOf, IndexOf, Quiet, SetShape;
  }

  lemma {:induction false} RunHoldsRoom(m: Mem, reqs: seq<Req>, i: nat)
    requires Shape(m) && Quiet(m) && m.Cached? && i < m.g.Sets()
    requires InUse(m.c.sets[i]) + |TagsIn(m.g, i, reqs)| <= m.g.WayCount()
    ensures HoldsAt(m.g, CacheRun(m, reqs), i, TagsIn(m.g, i, reqs), InUse(m.c.sets[i]))
  {
    if |reqs| == 0 {
      assert TagsIn(m.g, i, reqs) == {};
    } else {
      hide Shape, Quiet, Holds, Access, TagOf, IndexOf, TagsIn, HoldsAt, InUse;
      var front := reqs[..|reqs| - 1];
      TagsInLast(m.g, i, reqs);
      SubsetSize(TagsIn(m.g, i, front), TagsIn(m.g, i, reqs));
      RunHoldsRoom(m, front, i);
      RunStays(m, front);
      HoldStep(CacheRun(m, front), i, TagsIn(m.g, i, front), InUse(m.c.sets[i]), reqs[|reqs| - 1]);
    }
  }

  /** Capacity: from any warm state, as long as the lines the requests touch in a set fit into the ways
      that were empty, a line touched once is there for every later request. */
  lemma CapacityGuarantee(m: Mem, reqs: seq<Req>, p: nat, q: nat)
    requires Shape(m) && Quiet(m) && m.Cached? && p < q < |reqs|
    requires LineAddrOf(m.g, reqs[p].addr) == LineAddrOf(m.g, reqs[q].addr)
    requires var i := IndexOf(m.g, reqs[q].addr);
      InUse(m.c.sets[i]) + |TagsIn(m.g, i, reqs[..q])| <= m.g.WayCount()
    ensures var r := CacheRun(m, reqs[..q]); r.Cached? && r.g == m.g && Resident(r.g, r.c, reqs[q].addr)
  {
    var i := IndexOf(m.g, reqs[q].addr);
    LineBase(m.g, reqs[p].addr);
    LineBase(m.g, reqs[q].addr);
    RunHoldsRoom(m, reqs[..q], i);
    RunStays(m, reqs[..q]);
    hide Shape, CacheRun, IndexOf, TagOf, LineAddrOf, Quiet, InUse;
    assert reqs[..q][p] == reqs[p];
    assert TagOf(m.g, reqs[q].addr) in TagsIn(m.g, i, reqs[..q]);
  }

  // ---- From a cold cache ----

  /** Set i holds lines of t only. */
  predicate OnlyAt(g: Geometry, m: Mem, i: nat, t: set<nat>) {
    m.Cached? && m.g == g && i < |m.c.sets|
    && forall w | 0 <= w < |m.c.sets[i].lines| && m.c.sets[i].lines[w].valid :: m.c.sets[i].lines[w].tag in t
  }

  lemma SetOnly(g: Geometry, s: CacheSet, t: set<nat>, tag: nat, isWrite: bool)
    requires SetShape(g, s)
    requires forall w | 0 <= w < |s.lines| && s.lines[w].valid :: s.lines[w].tag in t
    ensures var s' := SetAccess(g, s, tag, isWrite);
      forall w | 0 <= w < |s'.lines| && s'.lines[w].valid :: s'.lines[w].tag in t + {tag}
  {
    hide Touch, Perfect, Ways, ChooseVictim;
  }

  lemma OnlyStep(m: Mem, i: nat, t: set<nat>, r: Req)
    requires Shape(m) && Quiet(m) && m.Cached? && OnlyAt(m.g, m, i, t)
    ensures OnlyAt(m.g, Access(m, r.addr, r.isWrite), i,
                   if IndexOf(m.g, r.addr) == i then t + {TagOf(m.g, r.addr)} else t)
  {
    AccessOnSets(m.g, m.c, m.backing, r.addr, r.isWrite);
    if IndexOf(m.g, r.addr) == i { SetOnly(m.g, m.c.sets[i], t, TagOf(m.g, r.addr), r.isWrite); }
    hide Access, SetAccess, TagOf, IndexOf, Quiet, SetShape;
  }

  /** From a cold cache a set holds nothing that was not touched. */
  lemma {:induction false} RunOnly(m: Mem, reqs: seq<Req>, i: nat)
    requires Shape(m) && Quiet(m) && m.Cached? && i < m.g.Sets() && Cold(m.c)
    ensures OnlyAt(m.g, CacheRun(m, reqs), i, TagsIn(m.g, i, reqs))
  {
    if |reqs| == 0 {
      assert TagsIn(m.g, i, reqs) == {};
    } else {
      hide Shape, Quiet, Access, TagOf, IndexOf, TagsIn, OnlyAt, Cold;
      var front := reqs[..|reqs| - 1];
      TagsInLast(m.g, i, reqs);
      RunOnly(m, front, i);
      RunStays(m, front);
      OnlyStep(CacheRun(m, front), i, TagsIn(m.g, i, front), reqs[|reqs| - 1]);
    }
  }

  lemma ColdIsEmpty(m: Mem, i: nat)
    requires Shape(m) && m.Cached? && Cold(m.c) && i < m.g.Sets()
    ensures InUse(m.c.sets[i]) == 0
  {
    hide SetShape;
    NoneFilled(m.c.sets[i].lines);
  }

  lemma {:induction false} NoneFilled(lines: seq<Line>)
    requires forall w | 0 <= w < |lines| :: lines[w] == EMPTY_LINE
    ensures CountLines(Filled, lines) == 0
  {
    if |lines| > 0 { NoneFilled(lines[..|lines| - 1]); }
  }

  lemma StartKeeps(g: Geometry, c: CacheState, addr: Word)
    requires CacheShape(g, c)
    ensures var d := MaybeStartPrefetch(g, c, addr);
      && d.sets == c.sets && d.phase == c.phase && d.lastHit == c.lastHit && d.curAddr == c.curAddr
      && d.curIsWrite == c.curIsWrite
  {
    hide SetShape, ChooseVictim, FindWay, IndexOf, TagOf, NextLine, LineAddrOf;
  }

  /** A ready call in phase Idle looks up its own address, prefetching or not: it hits exactly if the line of
      the address is there, and last_was_hit says so. */
  lemma LooksUp(g: Geometry, c: CacheState, addr: Word, isWrite: bool)
    requires CacheShape(g, c)
    ensures var d := Begin(g, c, addr, isWrite);
      && d.curAddr == addr && d.curIsWrite == isWrite && d.lastHit == Resident(g, c, addr)
      && d.phase.HitWait? == Resident(g, c, addr)
  {
    var c0 := c.(curAddr := addr, curIsWrite := isWrite, lastHit := WayOf(g, c, addr) >= 0);
    assert CacheShape(g, c0) by { hide SetShape; }
    StartKeeps(g, c0, addr);
    hide SetShape, HitIn, ChooseVictim, FindWay, IndexOf, TagOf, LineAddrOf, AddrOf, MaybeStartPrefetch;
  }

  /** What last_was_hit reports after an access. */
  lemma ReportsHit(m: Mem, r: Req)
    requires Shape(m) && Quiet(m) && m.Cached?
    ensures var n := Access(m, r.addr, r.isWrite); n.Cached? && n.c.lastHit == Resident(m.g, m.c, r.addr)
  {
    BeginQuiet(m.g, m.c, r.addr, r.isWrite);
    LooksUp(m.g, m.c, r.addr, r.isWrite);
    hide SetShape, InstallIn, DirtyVictim, IndexOf, TagOf, Begin, Resident;
  }

  predicate Touched(g: Geometry, reqs: seq<Req>, addr: Word) {
    exists p :: 0 <= p < |reqs| && LineAddrOf(g, reqs[p].addr) == LineAddrOf(g, addr)
  }

  /** From a cold cache, as long as the requests touch at most `ways` lines of a set, a request to the set
      hits if and only if its line was touched before: each line misses exactly once. */
  lemma ColdCapacity(m: Mem, reqs: seq<Req>, addr: Word)
    requires Shape(m) && Quiet(m) && m.Cached? && Cold(m.c)
    requires |TagsIn(m.g, IndexOf(m.g, addr), reqs)| <= m.g.WayCount()
    ensures var r := CacheRun(m, reqs);
      r.Cached? && r.g == m.g && (Resident(r.g, r.c, addr) <==> Touched(m.g, reqs, addr))
  {
    var i := IndexOf(m.g, addr);
    ColdIsEmpty(m, i);
    RunHoldsRoom(m, reqs, i);
    RunOnly(m, reqs, i);
    TouchedIs(m.g, reqs, addr);
    hide Shape, CacheRun, IndexOf, TagOf, LineAddrOf, Quiet, InUse, TagsIn, Touched, Cold;
  }

  lemma TouchedIs(g: Geometry, reqs: seq<Req>, addr: Word)
    ensures Touched(g, reqs, addr) == (TagOf(g, addr) in TagsIn(g, IndexOf(g, addr), reqs))
  {
    hide IndexOf, TagOf, LineAddrOf;
    if Touched(g, reqs, addr) {
      var p :| 0 <= p < |reqs| && LineAddrOf(g, reqs[p].addr) == LineAddrOf(g, addr);
      LineBase(g, reqs[p].addr);
      LineBase(g, addr);
    }
    if TagOf(g, addr) in TagsIn(g, IndexOf(g, addr), reqs) {
      var i, tag := IndexOf(g, addr), TagOf(g, addr);
      var k :| 0 <= k < |reqs| && IndexOf(g, reqs[k].addr) == i && TagOf(g, reqs[k].addr) == tag;
      SameLine(g, reqs[k].addr, addr);
    }
  }
}
