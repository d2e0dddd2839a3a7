/** What the prefetch engine fetches: the lines right after a demand access, at most `degree` of them. */
module PrefetchChain {
  import opened Words
  import opened Hierarchy
  import opened Prefetch

  /** The n-th line after the line of addr. */
  function Ahead(g: Geometry, addr: Word, n: nat): Word {
    if n == 0 then LineAddrOf(g, addr) else NextLine(g, Ahead(g, addr, n - 1))
  }

  predicate Kept(c: CacheState, d: CacheState) { c.pfActive && d.pfAddr == c.pfAddr && d.pfChain == c.pfChain }

  /** How a pending prefetch can come about in one call. */
  predicate Arises(g: Geometry, c: CacheState, op: Op, d: CacheState) {
    || Kept(c, d)
    || (op.Ask? && g.prefetch && d.pfChain == 1 && d.pfAddr == NextLine(g, LineAddrOf(g, op.addr)))
    || (op == Clock(true) && c.pfActive && c.pfChain < g.degree && d.pfChain == c.pfChain + 1
       && d.pfAddr == NextLine(g, c.pfAddr))
  }

  lemma QueueArises(g: Geometry, c: CacheState, target: Word, chain: nat)
    requires CacheShape(g, c)
    ensures var d := Queue(g, c, target, chain);
      d.pfActive ==> (d.pfAddr == target && d.pfChain == chain) || Kept(c, d)
  {
    hide CacheShape, Resident, ChooseVictim, IndexOf;
  }

  lemma StartArises(g: Geometry, c: CacheState, addr: Word)
    requires CacheShape(g, c)
    ensures var d := MaybeStartPrefetch(g, c, addr);
      d.pfActive ==> (g.prefetch && d.pfAddr == NextLine(g, LineAddrOf(g, addr)) && d.pfChain == 1) || Kept(c, d)
  {
    hide CacheShape, Queue, NextLine, LineAddrOf;
    QueueArises(g, c, NextLine(g, LineAddrOf(g, addr)), 1);
  }

  lemma BeginArises(g: Geometry, c: CacheState, addr: Word, isWrite: bool)
    requires CacheShape(g, c)
    ensures var d := Begin(g, c, addr, isWrite); d.pfActive ==> Arises(g, c, Ask(addr, isWrite), d)
  {
    hide CacheShape, MaybeStartPrefetch, HitIn, FindWay, ChooseVictim, IndexOf, TagOf, LineAddrOf, AddrOf, NextLine,
         WayOf;
    var c0 := c.(curAddr := addr, curIsWrite := isWrite, lastHit := WayOf(g, c, addr) >= 0);
    SameShape(g, c, c0);
    StartArises(g, c0, addr);
  }

  lemma ServiceArises(g: Geometry, c: CacheState, served: bool)
    requires CacheShape(g, c)
    ensures var d := ServicePrefetch(g, c, served); d.pfActive ==> Arises(g, c, Clock(served), d)
  {
    hide CacheShape, Install, Queue, NextLine;
    if c.pfActive && served {
      WayShape(g, c);
      var e := Install(g, c, c.pfAddr, c.pfWay, false, true);
      var c1 := e.(pfActive := false);
      SameShape(g, e, c1);
      InstallChain(g, c, c.pfAddr, c.pfWay, false, true);
      QueueArises(g, c1, NextLine(g, c.pfAddr), c.pfChain + 1);
    }
  }

  lemma WayShape(g: Geometry, c: CacheState)
    requires CacheShape(g, c)
    ensures c.pfWay < g.WayCount() && c.victimWay < g.WayCount()
  {
    hide SetShape;
  }

  lemma InstallChain(g: Geometry, c: CacheState, addr: Word, way: nat, isWrite: bool, fromPrefetch: bool)
    requires CacheShape(g, c) && way < g.WayCount()
    ensures var d := Install(g, c, addr, way, isWrite, fromPrefetch);
      d.pfAddr == c.pfAddr && d.pfChain == c.pfChain && d.pfActive == c.pfActive
  {
    hide SetShape, InstallIn;
  }

  lemma AdvanceArises(g: Geometry, c: CacheState, served: bool)
    requires CacheShape(g, c)
    ensures var d := Advance(g, c, served); d.pfActive ==> Arises(g, c, Clock(served), d)
  {
    hide CacheShape, Install, ServicePrefetch, NextLine;
    WayShape(g, c);
    match c.phase
    case Idle => ServiceArises(g, c, served);
    case HitWait =>
      var d := if c.hitRemaining > 0 then c.(hitRemaining := c.hitRemaining - 1) else c.(phase := Idle);
      SameShape(g, c, d);
      ServiceArises(g, d, served);
    case WriteBack =>
    case MissFetch => InstallChain(g, c, c.curAddr, c.victimWay, c.curIsWrite, false);
    case PrefetchWait => InstallChain(g, c, c.curAddr, c.victimWay, c.curIsWrite, false);
  }

  lemma DoArises(g: Geometry, c: CacheState, op: Op)
    requires CacheShape(g, c)
    ensures var d := Do(g, c, op); d.pfActive ==> Arises(g, c, op, d)
  {
    hide CacheShape, Begin, Advance, NextLine, LineAddrOf;
    match op
    case Ask(addr, isWrite) => if c.phase.Idle? { BeginArises(g, c, addr, isWrite); }
    case Clock(served) => AdvanceArises(g, c, served);
  }

  /** Access i of the run is where the pending prefetch comes from. */
  predicate Origin(g: Geometry, c: CacheState, ops: seq<Op>, i: nat) {
    i < |ops| && ops[i].Ask? && c.pfAddr == Ahead(g, ops[i].addr, c.pfChain)
  }

  lemma {:induction false} OriginOf(g: Geometry, c: CacheState, ops: seq<Op>) returns (i: nat)
    requires CacheShape(g, c) && Fresh(c)
    ensures var d := Run(g, c, ops); d.pfActive ==> g.prefetch && 1 <= d.pfChain <= g.degree && Origin(g, d, ops, i)
  {
    hide CacheShape, Do, Origin, Ahead, NextLine, LineAddrOf;
    if |ops| == 0 {
      i := 0;
      NoPending(g, c);
    } else {
      var front, op := ops[..|ops| - 1], ops[|ops| - 1];
      i := OriginOf(g, c, front);
      var b, d := Run(g, c, front), Run(g, c, ops);
      DoArises(g, b, op);
      if d.pfActive {
        if !Kept(b, d) && op.Ask? { i := |ops| - 1; }
        OriginMoves(g, b, d, ops, i);
      }
    }
  }

  lemma NoPending(g: Geometry, c: CacheState)
    requires CacheShape(g, c) && Fresh(c)
    ensures !Run(g, c, []).pfActive
  {
    hide CacheShape;
  }

  lemma OriginMoves(g: Geometry, b: CacheState, d: CacheState, ops: seq<Op>, i: nat)
    requires |ops| > 0 && Arises(g, b, ops[|ops| - 1], d)
    requires (Kept(b, d) || !ops[|ops| - 1].Ask?) && b.pfActive ==> Origin(g, b, ops[..|ops| - 1], i)
    requires !Kept(b, d) && ops[|ops| - 1].Ask? ==> i == |ops| - 1
    ensures Origin(g, d, ops, i)
  {
    hide NextLine, LineAddrOf;
    if !Kept(b, d) && ops[|ops| - 1].Ask? { assert Ahead(g, ops[i].addr, 1) == NextLine(g, Ahead(g, ops[i].addr, 0)); }
  }

  /** In every reachable state a pending prefetch is for one of the next `degree` lines after the line
      of an earlier demand access, and there is none when prefetching is off. */
  lemma PrefetchesAhead(g: Geometry, c: CacheState, ops: seq<Op>)
    requires CacheShape(g, c) && Fresh(c)
    ensures var d := Run(g, c, ops);
      d.pfActive ==> g.prefetch && 1 <= d.pfChain <= g.degree && exists i: nat :: Origin(g, d, ops, i)
  {
    hide CacheShape, Run, Origin, Fresh;
    var i := OriginOf(g, c, ops);
  }
}
