/** When a prefetch may overwrite a dirty line.  The engine checks its victim when it queues, not when
    it installs: a store hit in between can dirty the reserved way. */
module PrefetchSafety {
  import opened Words
  import opened Bits
  import opened PlruTree
  import opened Hierarchy
  import opened CacheCost
  import opened Prefetch

  /** The line a pending prefetch will replace. */
  function ReservedLine(g: Geometry, c: CacheState): Line
    requires CacheShape(g, c)
  {
    c.sets[IndexOf(g, c.pfAddr)].lines[c.pfWay]
  }

  predicate ReservedClean(g: Geometry, c: CacheState)
    requires CacheShape(g, c)
  {
    c.pfActive ==> !Dirty(ReservedLine(g, c))
  }

  /** This op installs a prefetched line over a dirty one. */
  predicate Overwrites(g: Geometry, c: CacheState, op: Op)
    requires CacheShape(g, c)
  {
    Installs(c, op) && Dirty(ReservedLine(g, c))
  }

  /** The engine after a demand access to addr has queued the next line, if it does. */
  function Queued(g: Geometry, c: CacheState, addr: Word, isWrite: bool): (d: CacheState)
    requires CacheShape(g, c)
    ensures CacheShape(g, d) && d.sets == c.sets
  {
    MaybeStartPrefetch(g, c.(curAddr := addr, curIsWrite := isWrite, lastHit := WayOf(g, c, addr) >= 0), addr)
  }

  /** This op is a store that hits the way a pending prefetch has reserved. */
  predicate StoresIntoReserved(g: Geometry, c: CacheState, op: Op)
    requires CacheShape(g, c)
  {
    match op
    case Clock(_) => false
    case Ask(addr, isWrite) =>
      var d := Queued(g, c, addr, isWrite);
      isWrite && c.phase.Idle? && d.pfActive
      && WayOf(g, c, addr) == d.pfWay && IndexOf(g, d.pfAddr) == IndexOf(g, addr)
  }

  lemma QueueReserves(g: Geometry, c: CacheState, target: Word, chain: nat)
    requires CacheShape(g, c) && ReservedClean(g, c)
    ensures ReservedClean(g, Queue(g, c, target, chain))
  {
    hide SetShape, Resident, ChooseVictim, IndexOf;
  }

  lemma QueuedReserves(g: Geometry, c: CacheState, addr: Word, isWrite: bool)
    requires CacheShape(g, c) && ReservedClean(g, c)
    ensures ReservedClean(g, Queued(g, c, addr, isWrite))
  {
    hide CacheShape, Queue, IndexOf, WayOf, NextLine, LineAddrOf;
    var c0 := c.(curAddr := addr, curIsWrite := isWrite, lastHit := WayOf(g, c, addr) >= 0);
    SameShape(g, c, c0);
    QueueReserves(g, c0, NextLine(g, LineAddrOf(g, addr)), 1);
  }

  lemma BeginHit(g: Geometry, c: CacheState, addr: Word, isWrite: bool)
    requires CacheShape(g, c) && WayOf(g, c, addr) >= 0
    ensures var w := WayOf(g, c, addr); var i := IndexOf(g, addr); var q := Queued(g, c, addr, isWrite);
            var d := Begin(g, c, addr, isWrite);
      && i < |c.sets| && w < g.WayCount() && w < |c.sets[i].lines| && c.sets[i].lines[w].valid
      && d.sets == c.sets[i := HitIn(g, c.sets[i], w, isWrite)]
      && d.pfActive == q.pfActive && d.pfAddr == q.pfAddr && d.pfWay == q.pfWay
  {
    assert SetShape(g, c.sets[IndexOf(g, addr)]);
    hide MaybeStartPrefetch, Perfect, Ways, HitIn, FindWay, ChooseVictim, IndexOf, TagOf, LineAddrOf, AddrOf;
  }

  lemma BeginMiss(g: Geometry, c: CacheState, addr: Word, isWrite: bool)
    requires CacheShape(g, c) && WayOf(g, c, addr) < 0
    ensures var q := Queued(g, c, addr, isWrite); var d := Begin(g, c, addr, isWrite);
      d.sets == c.sets && (d.pfActive ==> q.pfActive) && d.pfAddr == q.pfAddr && d.pfWay == q.pfWay
  {
    hide CacheShape, MaybeStartPrefetch, FindWay, ChooseVictim, IndexOf, TagOf, LineAddrOf, AddrOf;
  }

  lemma HitLines(g: Geometry, c: CacheState, i: nat, w: nat, isWrite: bool, j: nat, v: nat)
    requires CacheShape(g, c) && i < |c.sets| && j < |c.sets| && w < g.WayCount() && v < g.WayCount()
    ensures var sets := c.sets[i := HitIn(g, c.sets[i], w, isWrite)]; var L := c.sets[j].lines[v];
      |sets[j].lines| == g.WayCount() && |c.sets[j].lines| == g.WayCount()
      && sets[j].lines[v] == if i == j && w == v then L.(dirty := L.dirty || isWrite, prefetched := false) else L
  {
    assert SetShape(g, c.sets[i]) && SetShape(g, c.sets[j]);
    hide Perfect, Ways, Touch;
  }

  /** A demand access keeps the reserved line clean exactly when it is not a store that hits it. */
  lemma BeginReserves(g: Geometry, c: CacheState, addr: Word, isWrite: bool)
    requires CacheShape(g, c) && c.phase.Idle? && ReservedClean(g, c)
    ensures ReservedClean(g, Begin(g, c, addr, isWrite)) <==> !StoresIntoReserved(g, c, Ask(addr, isWrite))
  {
    hide CacheShape, Begin, Queued, IndexOf, WayOf, HitIn;
    var q := Queued(g, c, addr, isWrite);
    QueuedReserves(g, c, addr, isWrite);
    QueuedShape(g, q);
    if WayOf(g, c, addr) >= 0 {
      BeginHit(g, c, addr, isWrite);
      HitLines(g, c, IndexOf(g, addr), WayOf(g, c, addr), isWrite, IndexOf(g, q.pfAddr), q.pfWay);
    } else {
      BeginMiss(g, c, addr, isWrite);
    }
  }

  lemma QueuedShape(g: Geometry, c: CacheState)
    requires CacheShape(g, c)
    ensures c.pfWay < g.WayCount() && IndexOf(g, c.pfAddr) < |c.sets|
  {
    hide SetShape, IndexOf;
  }

  lemma InstallLines(g: Geometry, c: CacheState, addr: Word, way: nat, isWrite: bool, fromPrefetch: bool, j: nat,
                     v: nat)
    requires CacheShape(g, c) && way < g.WayCount() && j < |c.sets| && v < g.WayCount()
    ensures var d := Install(g, c, addr, way, isWrite, fromPrefetch);
      && |d.sets| == |c.sets| && |d.sets[j].lines| == g.WayCount() && |c.sets[j].lines| == g.WayCount()
      && d.pfActive == c.pfActive && d.pfAddr == c.pfAddr && d.pfWay == c.pfWay
      && (!(j == IndexOf(g, addr) && v == way) ==> d.sets[j].lines[v] == c.sets[j].lines[v])
      && (j == IndexOf(g, addr) && v == way ==> d.sets[j].lines[v].dirty == isWrite)
  {
    assert SetShape(g, c.sets[IndexOf(g, addr)]) && SetShape(g, c.sets[j]);
    hide Perfect, Ways, Touch, IndexOf, TagOf;
  }

  lemma ServiceReserves(g: Geometry, c: CacheState, served: bool)
    requires CacheShape(g, c) && ReservedClean(g, c)
    ensures ReservedClean(g, ServicePrefetch(g, c, served))
  {
    hide Install, Queue, CacheShape, NextLine, IndexOf;
    if c.pfActive && served {
      QueuedShape(g, c);
      var e := Install(g, c, c.pfAddr, c.pfWay, false, true);
      var c1 := e.(pfActive := false);
      SameShape(g, e, c1);
      QueueReserves(g, c1, NextLine(g, c.pfAddr), c.pfChain + 1);
    }
  }

  lemma FillReserves(g: Geometry, c: CacheState)
    requires CacheShape(g, c) && ReservedClean(g, c) && DemandOk(g, c) && c.phase.MissFetch?
    ensures ReservedClean(g, Fill(g, c))
  {
    hide CacheShape, IndexOf, Install, Resident, LineAddrOf;
    QueuedShape(g, c);
    VictimShape(g, c);
    InstallLines(g, c, c.curAddr, c.victimWay, c.curIsWrite, false, IndexOf(g, c.pfAddr), c.pfWay);
  }

  lemma VictimShape(g: Geometry, c: CacheState)
    requires CacheShape(g, c)
    ensures c.victimWay < g.WayCount()
  {
    hide SetShape;
  }

  lemma AdvanceReserves(g: Geometry, c: CacheState, served: bool)
    requires CacheShape(g, c) && ReservedClean(g, c) && DemandOk(g, c)
    ensures ReservedClean(g, Advance(g, c, served))
  {
    hide CacheShape, Fill, ServicePrefetch, IndexOf, DemandOk;
    match c.phase
    case Idle => ServiceReserves(g, c, served);
    case HitWait =>
      var d := if c.hitRemaining > 0 then c.(hitRemaining := c.hitRemaining - 1) else c.(phase := Idle);
      SameShape(g, c, d);
      ServiceReserves(g, d, served);
    case WriteBack => SameShape(g, c, c.(phase := MissFetch));
    case MissFetch => if served { FillReserves(g, c); }
    case PrefetchWait =>
  }

  /** One op: the reserved line stays clean if and only if the op does not store into it. */
  lemma OpReserves(g: Geometry, c: CacheState, op: Op)
    requires CacheShape(g, c) && Coexist(g, c) && ReservedClean(g, c)
    ensures ReservedClean(g, Do(g, c, op)) <==> !StoresIntoReserved(g, c, op)
    ensures !Overwrites(g, c, op)
  {
    hide CacheShape, ReservedLine, Queued, Begin, Advance, AllUnique, TargetOk, DemandOk, IndexOf, WayOf;
    match op
    case Ask(addr, isWrite) => if c.phase.Idle? { BeginReserves(g, c, addr, isWrite); }
    case Clock(served) => AdvanceReserves(g, c, served);
  }

  /** If it does, a backing level that answers in the next cycle lets the prefetch overwrite it. */
  lemma OverwriteFollows(g: Geometry, c: CacheState, op: Op)
    requires CacheShape(g, c) && ReservedClean(g, c) && StoresIntoReserved(g, c, op)
    ensures Overwrites(g, Do(g, c, op), Clock(true))
  {
    hide CacheShape, ReservedLine, Queued, Begin, IndexOf, WayOf;
    BeginReserves(g, c, op.addr, op.isWrite);
    BeginPhase(g, c, op.addr, op.isWrite);
  }

  lemma BeginPhase(g: Geometry, c: CacheState, addr: Word, isWrite: bool)
    requires CacheShape(g, c) && WayOf(g, c, addr) >= 0
    ensures Begin(g, c, addr, isWrite).phase.HitWait?
  {
    hide MaybeStartPrefetch, CacheShape, HitIn, FindWay, ChooseVictim, IndexOf, TagOf, LineAddrOf, AddrOf;
  }

  // ---- Runs ----

  predicate SafeUse(g: Geometry, c: CacheState, ops: seq<Op>)
    requires CacheShape(g, c)
  {
    forall i | 0 <= i < |ops| :: !StoresIntoReserved(g, Run(g, c, ops[..i]), ops[i])
  }

  lemma {:induction false} SafeUseReserves(g: Geometry, c: CacheState, ops: seq<Op>)
    requires CacheShape(g, c) && Fresh(c) && SafeUse(g, c, ops)
    ensures ReservedClean(g, Run(g, c, ops))
  {
    hide CacheShape, Do, Coexist, ReservedLine, StoresIntoReserved;
    if |ops| > 0 {
      var front := ops[..|ops| - 1];
      SafeUseFront(g, c, ops);
      SafeUseReserves(g, c, front);
      CoexistAlways(g, c, front);
      OpReserves(g, Run(g, c, front), ops[|ops| - 1]);
      assert !StoresIntoReserved(g, Run(g, c, front), ops[|ops| - 1]);
    }
  }

  lemma SafeUseFront(g: Geometry, c: CacheState, ops: seq<Op>)
    requires CacheShape(g, c) && SafeUse(g, c, ops) && |ops| > 0
    ensures SafeUse(g, c, ops[..|ops| - 1])
  {
    hide CacheShape, StoresIntoReserved, Run;
    var front := ops[..|ops| - 1];
    forall i | 0 <= i < |front| ensures !StoresIntoReserved(g, Run(g, c, front[..i]), front[i]) {
      assert front[..i] == ops[..i] && front[i] == ops[i];
      assert !StoresIntoReserved(g, Run(g, c, ops[..i]), ops[i]);
    }
  }

  /** A prefetch overwrites a dirty line in some continuation of a run if and only if some store has hit
      a reserved way: with no such store, no op of the run and no next op overwrites. */
  lemma NeverOverwrites(g: Geometry, c: CacheState, ops: seq<Op>, next: Op)
    requires CacheShape(g, c) && Fresh(c) && SafeUse(g, c, ops)
    ensures var d := Run(g, c, ops);
      && !Overwrites(g, d, next)
      && (Overwrites(g, Do(g, d, next), Clock(true)) ==> StoresIntoReserved(g, d, next))
      && (StoresIntoReserved(g, d, next) ==> Overwrites(g, Do(g, d, next), Clock(true)))
  {
    hide CacheShape, Do, Coexist, ReservedLine, StoresIntoReserved, Fresh, SafeUse, Run;
    SafeUseReserves(g, c, ops);
    CoexistAlways(g, c, ops);
    var d := Run(g, c, ops);
    OpReserves(g, d, next);
    if StoresIntoReserved(g, d, next) { OverwriteFollows(g, d, next); }
  }

  /** Read-only use, as on the instruction side, is always safe. */
  lemma ReadOnlyIsSafe(g: Geometry, c: CacheState, ops: seq<Op>)
    requires CacheShape(g, c)
    requires forall i | 0 <= i < |ops| :: ops[i].Ask? ==> !ops[i].isWrite
    ensures SafeUse(g, c, ops)
  {
    hide CacheShape, Run, Queued, IndexOf, WayOf;
  }

  // ---- A run in which it happens ----

  /** A direct-mapped cache of two one-byte lines, hit latency 1, prefetch degree 1. */
  const TINY := Geometry(0, 1, 0, 1, true, 1)

  function OneLine(L: Line): CacheSet { CacheSet([L], Leaf(0)) }

  function Start(): CacheState {
    CacheState([OneLine(EMPTY_LINE), OneLine(EMPTY_LINE)], Idle, 0, false, 0, 0, 0, false, false, 0, 0, 0, 0, 0)
  }

  lemma OneLineShape(L: Line)
    ensures SetShape(TINY, OneLine(L))
  {
    assert Pow2(0) == 1;
    assert Ways(Leaf(0)) == {0};
  }

  lemma TinyAddress(a: Word)
    requires a < 8
    ensures IndexOf(TINY, a) == a % 2 && TagOf(TINY, a) == a / 2 && LineAddrOf(TINY, a) == a
    ensures NextLine(TINY, a) == a + 1
  {
    assert Pow2(0) == 1;
    assert LowBits(a, 0) == 0;
    assert Shr(a, 0) == a;
    assert Shr(a, 1) == Shr(a / 2, 0) == a / 2;
    assert LowBits(a, 1) == a % 2 + 2 * LowBits(a / 2, 0);
  }

  /** What all states of the run have in common. */
  predicate TinyState(c: CacheState, even: Line, odd: Line) {
    c.sets == [OneLine(even), OneLine(odd)] && c.victimWay == 0 && c.pfWay == 0
  }

  lemma TinyShape(c: CacheState, even: Line, odd: Line)
    requires TinyState(c, even, odd)
    ensures CacheShape(TINY, c) && TINY.WayCount() == 1
  {
    OneLineShape(even);
    OneLineShape(odd);
    assert Pow2(0) == 1 && Pow2(1) == 2;
  }

  function LineFor(a: Word, even: Line, odd: Line): Line { if a % 2 == 0 then even else odd }

  predicate Holds(L: Line, a: Word) { L.valid && L.tag == a / 2 }

  lemma TinyFind(c: CacheState, a: Word, even: Line, odd: Line)
    requires TinyState(c, even, odd) && a < 8
    ensures CacheShape(TINY, c) && SetAt(TINY, c, a) == OneLine(LineFor(a, even, odd))
    ensures WayOf(TINY, c, a) == (if Holds(LineFor(a, even, odd), a) then 0 else -1)
    ensures ChooseVictim(TINY, SetAt(TINY, c, a)) == 0
  {
    TinyShape(c, even, odd);
    TinyAddress(a);
    var L := LineFor(a, even, odd);
    assert SetAt(TINY, c, a) == OneLine(L);
    assert FindWay([L], a / 2, 1) == -1;
    assert FirstInvalid([L], 1) == -1;
    hide IndexOf, TagOf, SetShape;
  }

  lemma TinyQueue(c: CacheState, a: Word, even: Line, odd: Line)
    requires TinyState(c, even, odd) && a < 7 && !c.pfActive
    ensures CacheShape(TINY, c)
    ensures var L := LineFor(a + 1, even, odd);
      MaybeStartPrefetch(TINY, c, a)
      == if Holds(L, a + 1) || Dirty(L) then c else c.(pfAddr := a + 1, pfWay := 0, pfActive := true, pfChain := 1)
  {
    hide IndexOf, TagOf, SetShape, CacheShape, ChooseVictim, WayOf, LineAddrOf, NextLine, SetAt;
    TinyAddress(a);
    TinyFind(c, a + 1, even, odd);
  }

  lemma TinyInstall(c: CacheState, a: Word, even: Line, odd: Line, isWrite: bool, fromPrefetch: bool)
    requires TinyState(c, even, odd) && a < 8 && !LineFor(a, even, odd).valid
    ensures CacheShape(TINY, c) && TINY.WayCount() == 1
    ensures var L := Line(true, isWrite, fromPrefetch, a / 2);
      Install(TINY, c, a, 0, isWrite, fromPrefetch)
          == c.(sets := if a % 2 == 0 then [OneLine(L), OneLine(odd)] else [OneLine(even), OneLine(L)])
  {
    hide IndexOf, TagOf, SetShape, CacheShape;
    TinyShape(c, even, odd);
    TinyAddress(a);
    var L := Line(true, isWrite, fromPrefetch, a / 2);
    var s := OneLine(LineFor(a, even, odd));
    assert [s.lines[0]][0 := L] == [L];
    assert [OneLine(even), OneLine(odd)][0 := OneLine(L)] == [OneLine(L), OneLine(odd)];
    assert [OneLine(even), OneLine(odd)][1 := OneLine(L)] == [OneLine(even), OneLine(L)];
    OneLineShape(LineFor(a, even, odd));
    InstallTiny(s, isWrite, fromPrefetch, a / 2);
    hide InstallIn;
  }

  lemma InstallTiny(s: CacheSet, isWrite: bool, fromPrefetch: bool, tag: nat)
    requires |s.lines| == 1 && s == OneLine(s.lines[0]) && SetShape(TINY, s) && TINY.WayCount() == 1
    ensures InstallIn(TINY, s, 0, tag, isWrite, fromPrefetch) == OneLine(Line(true, isWrite, fromPrefetch, tag))
  {
    assert s.lines[0 := Line(true, isWrite, fromPrefetch, tag)] == [Line(true, isWrite, fromPrefetch, tag)];
    hide SetShape;
  }

  /** A miss that queues the next line. */
  lemma TinyMiss(c: CacheState, a: Word, even: Line, odd: Line)
    requires c.phase.Idle? && !c.pfActive && TinyState(c, even, odd) && a < 7 && !even.valid && !odd.valid
    ensures CacheShape(TINY, c)
    ensures Begin(TINY, c, a, false) == c.(phase := MissFetch, curAddr := a, curIsWrite := false, lastHit := false,
                                           pfActive := true, pfAddr := a + 1, pfChain := 1)
  {
    hide IndexOf, TagOf, SetShape, CacheShape, ChooseVictim, WayOf, LineAddrOf, NextLine, MaybeStartPrefetch;
    TinyFind(c, a, even, odd);
    TinyAddress(a);
    TinyAddress(a + 1);
    TinyQueue(c.(curAddr := a, curIsWrite := false, lastHit := false), a, even, odd);
  }

  /** The demand line arrives. */
  lemma TinyFill(c: CacheState, even: Line, odd: Line)
    requires c.phase.MissFetch? && c.curAddr < 8 && TinyState(c, even, odd) && !LineFor(c.curAddr, even, odd).valid
    ensures CacheShape(TINY, c)
    ensures Advance(TINY, c, true)
            == Install(TINY, c, c.curAddr, 0, c.curIsWrite, false).(phase := HitWait, hitRemaining := 0)
  {
    hide IndexOf, CacheShape, Install;
    TinyShape(c, even, odd);
  }

  /** A first use of a prefetched line, which queues the next line over a clean one. */
  lemma TinyHit(c: CacheState, a: Word, even: Line, odd: Line)
    requires c.phase.Idle? && !c.pfActive && TinyState(c, even, odd) && a < 7 && a % 2 == 0 && Holds(even, a)
    requires even.prefetched && !even.dirty
    requires !Holds(odd, a + 1) && !Dirty(odd)
    ensures CacheShape(TINY, c)
    ensures Begin(TINY, c, a, false)
            == c.(sets := [OneLine(even.(prefetched := false)), OneLine(odd)], phase := HitWait, hitRemaining := 0,
                curAddr := a, curIsWrite := false,
                  lastHit := true, pfActive := true, pfAddr := a + 1, pfWay := 0, pfChain := 1, useful := c.useful + 1)
  {
    hide IndexOf, TagOf, SetShape, CacheShape, ChooseVictim, WayOf, LineAddrOf, NextLine, MaybeStartPrefetch, HitIn;
    TinyShape(c, even, odd);
    TinyFind(c, a, even, odd);
    TinyAddress(a);
    TinyQueue(c.(curAddr := a, curIsWrite := false, lastHit := true), a, even, odd);
    OneLineShape(even);
    HitTiny(even);
    assert [OneLine(even), OneLine(odd)][0 := OneLine(even.(prefetched := false))]
        == [OneLine(even.(prefetched := false)), OneLine(odd)];
  }

  lemma HitTiny(L: Line)
    requires SetShape(TINY, OneLine(L)) && TINY.WayCount() == 1
    ensures HitIn(TINY, OneLine(L), 0, false) == OneLine(L.(prefetched := false))
  {
    assert [L][0 := L.(prefetched := false)] == [L.(prefetched := false)];
    hide SetShape;
  }

  const LINE_1 := Line(true, false, false, 0)
  const LINE_2 := Line(true, false, true, 1)

  /** The cache over a flat memory of latency 2, which is `busy` in the middle of a request. */
  function Level(c: CacheState, busy: bool): Mem { Cached(TINY, c, Flat(2, busy, 0)) }

  lemma LevelShape(c: CacheState, even: Line, odd: Line, busy: bool)
    requires TinyState(c, even, odd) && c.hitRemaining == 0
    ensures CacheShape(TINY, c) && Shape(Level(c, busy)) && Shapes(TINY, c, Flat(2, busy, 0))
  {
    TinyShape(c, even, odd);
    hide CacheShape;
  }

  /** The backing request in its first and in its second cycle. */
  lemma TwoCycles(addr: Word, isWrite: bool)
    ensures !IsServed(Ready(Flat(2, false, 0), addr, isWrite))
    ensures Tick(Ready(Flat(2, false, 0), addr, isWrite)) == Flat(2, true, 0)
    ensures IsServed(Ready(Flat(2, true, 0), addr, isWrite))
    ensures Tick(Ready(Flat(2, true, 0), addr, isWrite)) == Flat(2, false, 0)
  {
  }

  lemma FetchWaits(c: CacheState, even: Line, odd: Line)
    requires TinyState(c, even, odd) && c.hitRemaining == 0 && c.phase.MissFetch?
    ensures Shape(Level(c, false)) && Tick(Level(c, false)) == Level(c, true)
  {
    hide CacheShape, Tick, Ready, IsServed, Shape, Shapes;
    LevelShape(c, even, odd, false);
    TickDemands(TINY, c, Flat(2, false, 0));
    TwoCycles(c.curAddr, false);
  }

  lemma FetchArrives(c: CacheState, even: Line, odd: Line)
    requires TinyState(c, even, odd) && c.hitRemaining == 0 && c.phase.MissFetch?
    ensures Shape(Level(c, true)) && Tick(Level(c, true)) == Level(Fill(TINY, c), false)
  {
    hide CacheShape, Tick, Ready, IsServed, Shape, Shapes, Fill;
    LevelShape(c, even, odd, true);
    TickDemands(TINY, c, Flat(2, true, 0));
    TwoCycles(c.curAddr, false);
  }

  /** A served demand releases; a pending prefetch waits for its first cycle, or arrives in its second. */
  lemma PrefetchWaits(c: CacheState, even: Line, odd: Line)
    requires TinyState(c, even, odd) && c.hitRemaining == 0 && c.phase.HitWait? && c.pfActive
    ensures Shape(Level(c, false)) && Tick(Level(c, false)) == Level(c.(phase := Idle), true)
  {
    hide CacheShape, Tick, Ready, IsServed, Shape, Shapes, Install, Queue;
    LevelShape(c, even, odd, false);
    TickServes(TINY, c, Flat(2, false, 0));
    TwoCycles(c.pfAddr, false);
  }

  lemma PrefetchArrives(c: CacheState, even: Line, odd: Line)
    requires TinyState(c, even, odd) && c.hitRemaining == 0 && (c.phase.HitWait? || c.phase.Idle?) && c.pfActive
    requires c.pfChain == 1
    ensures Shape(Level(c, true)) && CacheShape(TINY, c.(phase := Idle)) && TINY.WayCount() == 1
    ensures Tick(Level(c, true))
            == Level(Install(TINY, c.(phase := Idle), c.pfAddr, 0, false, true).(pfActive := false), false)
  {
    hide CacheShape, Tick, Ready, IsServed, Shape, Shapes, Install, Queue;
    LevelShape(c, even, odd, true);
    TinyShape(c.(phase := Idle), even, odd);
    TickServes(TINY, c, Flat(2, true, 0));
    TwoCycles(c.pfAddr, false);
    assert c.phase.Idle? ==> c.(phase := Idle) == c;
  }

  /** Line 1 on demand, in three rounds; then line 2 by prefetch. */
  lemma TinyFirst() returns (c: CacheState)
    ensures Shape(Level(Start(), false)) && Tick(Rounds(Level(Start(), false), 1, false, 3)) == Level(c, false)
    ensures c.phase.Idle? && !c.pfActive && c.hitRemaining == 0 && TinyState(c, LINE_2, LINE_1)
  {
    hide CacheShape, Begin, Install, Tick, Shape, Fill;
    var s := Start();
    TinyMiss(s, 1, EMPTY_LINE, EMPTY_LINE);
    LevelShape(s, EMPTY_LINE, EMPTY_LINE, false);
    var c1 := Begin(TINY, s, 1, false);
    FetchWaits(c1, EMPTY_LINE, EMPTY_LINE);
    FetchArrives(c1, EMPTY_LINE, EMPTY_LINE);
    TinyFill(c1, EMPTY_LINE, EMPTY_LINE);
    TinyInstall(c1, 1, EMPTY_LINE, EMPTY_LINE, false, false);
    var c2 := Fill(TINY, c1);
    PrefetchWaits(c2, EMPTY_LINE, LINE_1);
    var c3 := c2.(phase := Idle);
    PrefetchArrives(c3, EMPTY_LINE, LINE_1);
    TinyInstall(c3, 2, EMPTY_LINE, LINE_1, false, true);
    c := Install(TINY, c3, 2, 0, false, true).(pfActive := false);
    assert Ready(Level(s, false), 1, false) == Level(c1, false);
    assert Ready(Level(c1, true), 1, false) == Level(c1, true);
    assert Ready(Level(c2, false), 1, false) == Level(c2, false);
    assert Rounds(Level(s, false), 1, false, 1) == Round(Rounds(Level(s, false), 1, false, 0), 1, false);
    assert Rounds(Level(s, false), 1, false, 2) == Round(Rounds(Level(s, false), 1, false, 1), 1, false);
  }

  /** The cycle of n replaces the dirty line of `was` in set 1 by a clean, prefetched line `now`. */
  predicate LosesLine(n: Mem, was: nat, now: nat)
    requires Shape(n)
  {
    var t := Tick(n);
    && n.Cached? && |n.c.sets| == 2 && |n.c.sets[1].lines| == 1 && n.c.sets[1].lines[0] == Line(true, true, false, was)
    && t.Cached? && |t.c.sets| == 2 && |t.c.sets[1].lines| == 1 && t.c.sets[1].lines[0] == Line(true, false, true, now)
  }

  /** So a prefetch can overwrite a dirty line, in a run of the ready/tick protocol over a flat memory of
      latency 2: line 1 is fetched on demand and line 2 by prefetch, a use of line 2 queues line 3 over
      line 1, and a store hits line 1 before line 3 arrives.  Lines 1 and 3 have tags 0 and 1 in set 1. */
  lemma PrefetchCanOverwrite(m: Mem)
    requires m == Level(Start(), false)
    ensures Fresh(m.c) && Shape(m)
    ensures LosesLine(Ready(Round(Tick(Rounds(m, 1, false, 3)), 2, false), 1, true), 0, 1)
  {
    hide CacheShape, Begin, Install, Tick, Shape, Fill, Rounds;
    var c := TinyFirst();
    Overwriting(c, 2, 1);
    assert Tick(Rounds(m, 1, false, 3)) == Level(c, false);
  }

  lemma Overwriting(c: CacheState, a: Word, b: Word)
    requires c.phase.Idle? && !c.pfActive && c.hitRemaining == 0 && TinyState(c, LINE_2, LINE_1) && a == 2 && b == 1
    ensures Shape(Level(c, false))
    ensures LosesLine(Ready(Round(Level(c, false), a, false), b, true), 0, 1)
  {
    hide CacheShape, Begin, Tick, Shape, LosesLine;
    LevelShape(c, LINE_2, LINE_1, false);
    var c1 := Using(c, a);
    var c2 := c1.(phase := Idle);
    var c3 := TinyStoreHit(c2, b, Line(true, false, false, 1), LINE_1);
    assert Ready(Level(c, false), a, false) == Level(c1, false);
    assert Ready(Level(c2, true), b, true) == Level(c3, true);
    LastCycle(c3, Line(true, false, false, 1), DIRTY_1);
  }

  /** The use of line 2. */
  lemma Using(c: CacheState, a: Word) returns (d: CacheState)
    requires c.phase.Idle? && !c.pfActive && c.hitRemaining == 0 && TinyState(c, LINE_2, LINE_1) && a == 2
    ensures CacheShape(TINY, c) && d == Begin(TINY, c, a, false) && Shape(Level(d, false))
    ensures d.phase.HitWait? && d.hitRemaining == 0 && d.pfActive && d.pfAddr == 3 && d.pfChain == 1
    ensures TinyState(d, Line(true, false, false, 1), LINE_1) && Tick(Level(d, false)) == Level(d.(phase := Idle), true)
  {
    hide CacheShape, Begin, Tick, Shape;
    TinyHit(c, a, LINE_2, LINE_1);
    d := Begin(TINY, c, a, false);
    PrefetchWaits(d, Line(true, false, false, 1), LINE_1);
  }

  lemma LastCycle(c: CacheState, even: Line, odd: Line)
    requires c.phase.HitWait? && c.hitRemaining == 0 && c.pfActive && c.pfAddr == 3 && c.pfChain == 1
    requires TinyState(c, even, odd) && odd == DIRTY_1
    ensures Shape(Level(c, true)) && LosesLine(Level(c, true), 0, 1)
  {
    hide CacheShape, Tick, Shape, Install;
    PrefetchArrives(c, even, odd);
    TinyOver(c.(phase := Idle), even, odd);
  }

  const DIRTY_1 := Line(true, true, false, 0)

  /** A store that hits line 1, with a prefetch pending. */
  lemma TinyStoreHit(c: CacheState, a: Word, even: Line, odd: Line) returns (d: CacheState)
    requires c.phase.Idle? && c.pfActive && TinyState(c, even, odd) && a < 7 && a % 2 == 1 && Holds(odd, a)
    requires !odd.prefetched
    ensures CacheShape(TINY, c) && d == Begin(TINY, c, a, true)
    ensures d.phase.HitWait? && d.hitRemaining == 0 && TinyState(d, even, odd.(dirty := true))
    ensures d.pfActive && d.pfAddr == c.pfAddr && d.pfChain == c.pfChain
  {
    hide IndexOf, TagOf, SetShape, CacheShape, ChooseVictim, WayOf, LineAddrOf, NextLine, HitIn;
    TinyShape(c, even, odd);
    TinyFind(c, a, even, odd);
    TinyAddress(a);
    OneLineShape(odd);
    StoreTiny(odd);
    d := Begin(TINY, c, a, true);
    assert [OneLine(even), OneLine(odd)][1 := OneLine(odd.(dirty := true))]
        == [OneLine(even), OneLine(odd.(dirty := true))];
  }

  lemma StoreTiny(L: Line)
    requires SetShape(TINY, OneLine(L)) && TINY.WayCount() == 1 && !L.prefetched
    ensures HitIn(TINY, OneLine(L), 0, true) == OneLine(L.(dirty := true))
  {
    assert [L][0 := L.(dirty := true)] == [L.(dirty := true)];
    hide SetShape;
  }

  /** An install over a valid line replaces it. */
  lemma TinyOver(c: CacheState, even: Line, odd: Line)
    requires TinyState(c, even, odd) && c.pfAddr == 3
    ensures CacheShape(TINY, c) && TINY.WayCount() == 1
    ensures Install(TINY, c, c.pfAddr, 0, false, true).sets == [OneLine(even), OneLine(Line(true, false, true, 1))]
  {
    hide IndexOf, TagOf, SetShape, CacheShape, InstallIn;
    TinyShape(c, even, odd);
    TinyAddress(3);
    OneLineShape(odd);
    InstallTiny(OneLine(odd), false, true, 1);
    var L := OneLine(Line(true, false, true, 1));
    assert [OneLine(even), OneLine(odd)][1 := L] == [OneLine(even), L];
  }
}
