/** Replacement with prefetch off: while the accesses to a set touch at most log2(ways) + 1 distinct
    lines, each of those lines misses at most once, from any warm state. */
module WorkingSet {
  import opened Words
  import opened PlruTree
  import opened Hierarchy
  import opened CacheCost

  // ---- One set ----

  predicate Hits(s: CacheSet, tag: nat) { FindWay(s.lines, tag, 0) >= 0 }

  /** One access seen by its set: a hit, or a fill of the chosen victim. */
  function SetAccess(g: Geometry, s: CacheSet, tag: nat, isWrite: bool): (t: CacheSet)
    requires SetShape(g, s)
    ensures SetShape(g, t)
  {
    if Hits(s, tag) then HitIn(g, s, FindWay(s.lines, tag, 0), isWrite)
    else InstallIn(g, s, ChooseVictim(g, s), tag, isWrite, false)
  }

  function WayFor(s: CacheSet, tag: nat): nat {
    if Hits(s, tag) then FindWay(s.lines, tag, 0) else 0
  }

  /** The ways that hold the lines of t. */
  function WaysFor(s: CacheSet, t: set<nat>): set<nat> { set tag | tag in t :: WayFor(s, tag) }

  /** All lines of t are resident, in ways that replacement protects. */
  predicate Kept(s: CacheSet, t: set<nat>) {
    (forall tag | tag in t :: Hits(s, tag)) && Guarded(s.plru, WaysFor(s, t))
  }

  lemma {:induction false} ImageSize(s: CacheSet, t: set<nat>)
    ensures |WaysFor(s, t)| <= |t|
  {
    if t != {} {
      var tag :| tag in t;
      ImageSize(s, t - {tag});
      assert WaysFor(s, t) == WaysFor(s, t - {tag}) + {WayFor(s, tag)};
    }
  }

  /** The first match decides FindWay. */
  lemma {:induction false} FindWayIs(lines: seq<Line>, tag: nat, from: nat, w: nat)
    requires from <= w < |lines| && lines[w].valid && lines[w].tag == tag
    requires forall v | from <= v < w :: !(lines[v].valid && lines[v].tag == tag)
    ensures FindWay(lines, tag, from) == w
    decreases |lines| - from
  {
    if from < w { FindWayIs(lines, tag, from + 1, w); }
  }

  lemma SameWays(s: CacheSet, s': CacheSet, t: set<nat>)
    requires forall tag | tag in t :: Hits(s, tag) && FindWay(s'.lines, tag, 0) == FindWay(s.lines, tag, 0)
    ensures forall tag | tag in t :: Hits(s', tag)
    ensures WaysFor(s', t) == WaysFor(s, t)
  {
    hide FindWay;
    assert forall tag | tag in t :: WayFor(s', tag) == WayFor(s, tag);
    forall w | w in WaysFor(s, t) ensures w in WaysFor(s', t) {
      var tag :| tag in t && WayFor(s, tag) == w;
      assert WayFor(s', tag) == w;
    }
    forall w | w in WaysFor(s', t) ensures w in WaysFor(s, t) {
      var tag :| tag in t && WayFor(s', tag) == w;
      assert WayFor(s, tag) == w;
    }
  }

  lemma WaysForMore(s: CacheSet, t: set<nat>, tag: nat)
    ensures WaysFor(s, t + {tag}) == WaysFor(s, t) + {WayFor(s, tag)}
  {
    hide WayFor;
  }

  lemma {:induction false} HitKeepsLines(lines: seq<Line>, tag: nat, from: nat, way: nat, L: Line)
    requires from <= |lines| && way < |lines| && L.valid == lines[way].valid && L.tag == lines[way].tag
    ensures FindWay(lines[way := L], tag, from) == FindWay(lines, tag, from)
    decreases |lines| - from
  {
    if from < |lines| { HitKeepsLines(lines, tag, from + 1, way, L); }
  }

  lemma HitKeeps(g: Geometry, s: CacheSet, t: set<nat>, tag: nat, isWrite: bool)
    requires SetShape(g, s) && Kept(s, t) && Hits(s, tag)
    ensures Kept(SetAccess(g, s, tag, isWrite), t + {tag})
  {
    var w := FindWay(s.lines, tag, 0);
    var s' := SetAccess(g, s, tag, isWrite);
    forall u | u in t + {tag} ensures FindWay(s'.lines, u, 0) == FindWay(s.lines, u, 0) {
      HitKeepsLines(s.lines, u, 0, w, s'.lines[w]);
    }
    GuardedTouch(s.plru, WaysFor(s, t), w, g.wayBits);
    hide FindWay, Guarded, SetShape, Touch;
    SameWays(s, s', t + {tag});
    WaysForMore(s, t, tag);
  }

  /** Replacing a way that holds none of the lines of t keeps them where they are. */
  lemma {:induction false} FillKeepsLines(lines: seq<Line>, u: nat, from: nat, way: nat, L: Line)
    requires from <= |lines| && way < |lines| && L.tag != u
    requires FindWay(lines, u, from) >= 0 && FindWay(lines, u, from) != way
    ensures FindWay(lines[way := L], u, from) == FindWay(lines, u, from)
    decreases |lines| - from
  {
    if from < |lines| && FindWay(lines, u, from) != from { FillKeepsLines(lines, u, from + 1, way, L); }
  }

  /** The victim holds none of the lines of t. */
  lemma VictimSpares(g: Geometry, s: CacheSet, t: set<nat>)
    requires SetShape(g, s) && Kept(s, t) && |t| <= g.wayBits
    ensures ChooseVictim(g, s) !in WaysFor(s, t)
  {
    var way := ChooseVictim(g, s);
    var u := WaysFor(s, t);
    if FirstInvalid(s.lines, 0) >= 0 {
      assert forall tag | tag in t :: s.lines[WayFor(s, tag)].valid;
    } else {
      ImageSize(s, t);
      assert |u * Ways(s.plru)| <= |u| by { SubsetSize(u * Ways(s.plru), u); }
      GuardedVictim(s.plru, u, g.wayBits);
    }
  }

  lemma {:induction false} SubsetSize(a: set<nat>, b: set<nat>)
    requires a <= b
    ensures |a| <= |b|
  {
    assert b == a + (b - a);
  }

  /** So does filling a way that holds none of the lines of t. */
  lemma InstallKeeps(g: Geometry, s: CacheSet, t: set<nat>, way: nat, tag: nat, isWrite: bool, fromPrefetch: bool)
    requires SetShape(g, s) && Kept(s, t) && !Hits(s, tag) && way < g.WayCount() && way !in WaysFor(s, t)
    ensures Kept(InstallIn(g, s, way, tag, isWrite, fromPrefetch), t + {tag})
  {
    var s' := InstallIn(g, s, way, tag, isWrite, fromPrefetch);
    assert tag !in t;
    forall u | u in t ensures FindWay(s'.lines, u, 0) == FindWay(s.lines, u, 0) {
      assert WayFor(s, u) in WaysFor(s, t);
      FillKeepsLines(s.lines, u, 0, way, s'.lines[way]);
    }
    assert FindWay(s'.lines, tag, 0) == way by { InstalledFirst(s.lines, tag, 0, way, s'.lines[way]); }
    GuardedTouch(s.plru, WaysFor(s, t), way, g.wayBits);
    hide FindWay, Guarded, SetShape, Touch;
    SameWays(s, s', t);
    WaysForMore(s', t, tag);
  }

  lemma {:induction false} InstalledFirst(lines: seq<Line>, tag: nat, from: nat, way: nat, L: Line)
    requires from <= way < |lines| && L.valid && L.tag == tag && FindWay(lines, tag, from) < 0
    ensures FindWay(lines[way := L], tag, from) == way
    decreases way - from
  {
    if from < way { InstalledFirst(lines, tag, from + 1, way, L); }
  }

  lemma MissKeeps(g: Geometry, s: CacheSet, t: set<nat>, tag: nat, isWrite: bool)
    requires SetShape(g, s) && Kept(s, t) && !Hits(s, tag) && |t| <= g.wayBits
    ensures Kept(SetAccess(g, s, tag, isWrite), t + {tag})
  {
    VictimSpares(g, s, t);
    InstallKeeps(g, s, t, ChooseVictim(g, s), tag, isWrite, false);
    hide Kept, SetShape, ChooseVictim, InstallIn, WaysFor;
  }

  /** One more access keeps the lines touched so far, while there are few enough of them. */
  lemma AccessKeeps(g: Geometry, s: CacheSet, t: set<nat>, tag: nat, isWrite: bool)
    requires SetShape(g, s) && Kept(s, t) && |t + {tag}| <= g.wayBits + 1
    ensures Kept(SetAccess(g, s, tag, isWrite), t + {tag})
    ensures Hits(SetAccess(g, s, tag, isWrite), tag)
  {
    hide SetShape, SetAccess, Hits;
    if Hits(s, tag) {
      HitKeeps(g, s, t, tag, isWrite);
    } else {
      assert tag !in t;
      assert |t + {tag}| == |t| + 1;
      MissKeeps(g, s, t, tag, isWrite);
    }
    assert tag in t + {tag};
  }

  // ---- A whole cache ----

  datatype Req = Req(addr: Word, isWrite: bool)

  /** An access changes only the set of its address, in the way SetAccess says. */
  lemma AccessOnSets(g: Geometry, c: CacheState, b: Mem, addr: Word, isWrite: bool)
    requires Shape(Cached(g, c, b)) && Quiet(Cached(g, c, b))
    ensures var m := Access(Cached(g, c, b), addr, isWrite); var i := IndexOf(g, addr);
      m.Cached? && m.g == g && m.c.sets == c.sets[i := SetAccess(g, c.sets[i], TagOf(g, addr), isWrite)]
  {
    BeginQuiet(g, c, addr, isWrite);
    BeginSets(g, c, addr, isWrite);
    hide SetShape, HitIn, InstallIn, ChooseVictim, FindWay, DirtyVictim, Begin, IndexOf, TagOf;
  }

  /** The part of the first ready call that the rest of the access builds on. */
  lemma BeginSets(g: Geometry, c: CacheState, addr: Word, isWrite: bool)
    requires CacheShape(g, c) && !g.prefetch
    ensures var d := Begin(g, c, addr, isWrite); var i := IndexOf(g, addr);
      if Resident(g, c, addr) then d.sets == c.sets[i := HitIn(g, c.sets[i], WayOf(g, c, addr), isWrite)]
      else d.sets == c.sets && (!c.pfActive ==> d.victimWay == ChooseVictim(g, c.sets[i]))
  {
    hide SetShape, HitIn, ChooseVictim, FindWay, IndexOf, TagOf;
  }

  function CacheRun(m: Mem, reqs: seq<Req>): (r: Mem)
    requires Shape(m) && Quiet(m)
    ensures Shape(r) && Quiet(r)
  {
    if |reqs| == 0 then m
    else Access(CacheRun(m, reqs[..|reqs| - 1]), reqs[|reqs| - 1].addr, reqs[|reqs| - 1].isWrite)
  }

  /** The lines of set i, by tag, that the requests touch. */
  function TagsIn(g: Geometry, i: nat, reqs: seq<Req>): set<nat> {
    set k | 0 <= k < |reqs| && IndexOf(g, reqs[k].addr) == i :: TagOf(g, reqs[k].addr)
  }

  lemma TagsInLast(g: Geometry, i: nat, reqs: seq<Req>)
    requires |reqs| > 0
    ensures var last := reqs[|reqs| - 1].addr; var front := TagsIn(g, i, reqs[..|reqs| - 1]);
      TagsIn(g, i, reqs) == if IndexOf(g, last) == i then front + {TagOf(g, last)} else front
  {
    hide IndexOf, TagOf;
    var front := reqs[..|reqs| - 1];
    forall x | x in TagsIn(g, i, front) ensures x in TagsIn(g, i, reqs) {
      var k :| 0 <= k < |front| && IndexOf(g, front[k].addr) == i && TagOf(g, front[k].addr) == x;
      assert reqs[k] == front[k];
    }
    forall x | x in TagsIn(g, i, reqs)
      ensures x in TagsIn(g, i, front)
              || (x == TagOf(g, reqs[|reqs| - 1].addr) && IndexOf(g, reqs[|reqs| - 1].addr) == i)
    {
      var k :| 0 <= k < |reqs| && IndexOf(g, reqs[k].addr) == i && TagOf(g, reqs[k].addr) == x;
      if k < |front| { assert front[k] == reqs[k]; }
    }
    if IndexOf(g, reqs[|reqs| - 1].addr) == i { assert TagOf(g, reqs[|reqs| - 1].addr) in TagsIn(g, i, reqs); }
  }

  lemma KeptNothing(s: CacheSet)
    ensures Kept(s, {})
  {
    NothingTouched(s.plru);
    assert WaysFor(s, {}) == {};
  }

  predicate KeptAt(g: Geometry, m: Mem, i: nat, t: set<nat>) {
    m.Cached? && m.g == g && i < |m.c.sets| && Kept(m.c.sets[i], t)
  }

  lemma KeepStep(m: Mem, i: nat, t: set<nat>, r: Req)
    requires Shape(m) && Quiet(m) && m.Cached? && KeptAt(m.g, m, i, t)
    requires IndexOf(m.g, r.addr) == i ==> |t + {TagOf(m.g, r.addr)}| <= m.g.wayBits + 1
    ensures KeptAt(m.g, Access(m, r.addr, r.isWrite), i,
                   if IndexOf(m.g, r.addr) == i then t + {TagOf(m.g, r.addr)} else t)
  {
    AccessOnSets(m.g, m.c, m.backing, r.addr, r.isWrite);
    if IndexOf(m.g, r.addr) == i { AccessKeeps(m.g, m.c.sets[i], t, TagOf(m.g, r.addr), r.isWrite); }
    hide Access, Kept, SetAccess, TagOf, IndexOf, Quiet, SetShape;
  }

  lemma {:induction false} RunKeeps(m: Mem, reqs: seq<Req>, i: nat)
    requires Shape(m) && Quiet(m) && m.Cached? && i < m.g.Sets()
    requires |TagsIn(m.g, i, reqs)| <= m.g.wayBits + 1
    ensures KeptAt(m.g, CacheRun(m, reqs), i, TagsIn(m.g, i, reqs))
  {
    if |reqs| == 0 {
      assert TagsIn(m.g, i, reqs) == {};
      KeptNothing(m.c.sets[i]);
    } else {
      hide Shape, Quiet, Kept, Access, TagOf, IndexOf, TagsIn, KeptAt;
      var front := reqs[..|reqs| - 1];
      TagsInLast(m.g, i, reqs);
      SubsetSize(TagsIn(m.g, i, front), TagsIn(m.g, i, reqs));
      RunKeeps(m, front, i);
      RunStays(m, front);
      KeepStep(CacheRun(m, front), i, TagsIn(m.g, i, front), reqs[|reqs| - 1]);
    }
  }

  lemma {:induction false} RunStays(m: Mem, reqs: seq<Req>)
    requires Shape(m) && Quiet(m) && m.Cached?
    ensures CacheRun(m, reqs).Cached? && CacheRun(m, reqs).g == m.g
  {
    hide Shape, Quiet;
    if |reqs| > 0 {
      var r := CacheRun(m, reqs[..|reqs| - 1]);
      RunStays(m, reqs[..|reqs| - 1]);
      AccessOnSets(r.g, r.c, r.backing, reqs[|reqs| - 1].addr, reqs[|reqs| - 1].isWrite);
      hide Access;
    }
  }

  /** Working-set guarantee: while the accesses to a set touch at most log2(ways) + 1 distinct lines,
      a line touched once is there for every later access, so it misses at most once. */
  lemma WorkingSetGuarantee(m: Mem, reqs: seq<Req>, p: nat, q: nat)
    requires Shape(m) && Quiet(m) && m.Cached? && p < q < |reqs|
    requires LineAddrOf(m.g, reqs[p].addr) == LineAddrOf(m.g, reqs[q].addr)
    requires |TagsIn(m.g, IndexOf(m.g, reqs[q].addr), reqs[..q])| <= m.g.wayBits + 1
    ensures var r := CacheRun(m, reqs[..q]); r.Cached? && r.g == m.g && Resident(r.g, r.c, reqs[q].addr)
  {
    var i := IndexOf(m.g, reqs[q].addr);
    LineBase(m.g, reqs[p].addr);
    LineBase(m.g, reqs[q].addr);
    RunKeeps(m, reqs[..q], i);
    RunStays(m, reqs[..q]);
    hide Shape, CacheRun, IndexOf, TagOf, LineAddrOf, Quiet;
    assert reqs[..q][p] == reqs[p];
    assert TagOf(m.g, reqs[q].addr) in TagsIn(m.g, i, reqs[..q]);
  }
}
