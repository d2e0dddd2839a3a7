/** What one demand access costs when a prefetch may be occupying the port: a cache over flat memory,
    prefetching on or off, starting from an idle demand phase. */
module PrefetchCost {
  import opened Words
  import opened Hierarchy
  import opened CacheCost

  /** The rounds flat memory still owes: a request already in progress is joined, not restarted. */
  function Residual(b: Mem): Pos
    requires b.Flat?
  {
    if b.serving then b.remaining + 1 else b.latency
  }

  lemma FlatAsked(l: Pos, rem: nat, addr: Word, isWrite: bool)
    requires rem < l
    ensures Shape(Flat(l, false, rem)) && Ready(Flat(l, false, rem), addr, isWrite) == Flat(l, true, l - 1)
    ensures Shape(Flat(l, true, l - 1)) && Ready(Flat(l, true, l - 1), addr, isWrite) == Flat(l, true, l - 1)
  {
  }

  lemma FlatIdle(l: Pos, rem: nat, addr: Word, isWrite: bool)
    requires rem < l
    ensures Shape(Flat(l, false, rem)) && Serves(Flat(l, false, rem), addr, isWrite, l, Flat(l, false, 0))
  {
    hide Serves, Shape, Ready;
    FlatAsked(l, rem, addr, isWrite);
    FlatCountdown(l, l - 1, addr, isWrite);
    AskTwice(Flat(l, false, rem), addr, isWrite, l, Flat(l, false, 0));
  }

  lemma ResidualBound(b: Mem)
    requires Shape(b) && b.Flat?
    ensures Residual(b) <= b.latency && b.remaining < b.latency
  {
  }

  lemma FlatServes(b: Mem, addr: Word, isWrite: bool)
    requires Shape(b) && b.Flat?
    ensures Serves(b, addr, isWrite, Residual(b), Flat(b.latency, false, 0))
    ensures Residual(b) <= b.latency
  {
    hide Serves, Shape, Rounds, Waits, ServedAt, Ready;
    ResidualBound(b);
    match b {
      case Flat(l, serving, rem) =>
        if serving {
          FlatCountdown(l, rem, addr, isWrite);
          assert b == Flat(l, true, rem);
        } else {
          FlatIdle(l, rem, addr, isWrite);
          assert b == Flat(l, false, rem);
        }
    }
  }

  /** A held request is served in exactly n rounds, whatever state that leaves. */
  predicate ServedIn(m: Mem, addr: Word, isWrite: bool, n: nat)
    requires Shape(m)
  {
    n > 0 && Serves(m, addr, isWrite, n, Rounds(m, addr, isWrite, n))
  }

  lemma WaitThenServed(m: Mem, addr: Word, isWrite: bool, i: nat, mid: Mem, n: nat)
    requires Shape(m) && Waits(m, addr, isWrite, i) && Rounds(m, addr, isWrite, i) == mid
    requires Shape(mid) && ServedIn(mid, addr, isWrite, n)
    ensures ServedIn(m, addr, isWrite, i + n)
  {
    hide Shape, Rounds, Waits, Serves;
    WaitThenServe(m, addr, isWrite, i, mid, n, Rounds(mid, addr, isWrite, n));
    RoundsSplit(m, addr, isWrite, i, n);
  }

  lemma AskTwiceIn(m: Mem, addr: Word, isWrite: bool, n: nat)
    requires Shape(m) && Ready(Ready(m, addr, isWrite), addr, isWrite) == Ready(m, addr, isWrite)
    requires ServedIn(Ready(m, addr, isWrite), addr, isWrite, n)
    ensures ServedIn(m, addr, isWrite, n)
  {
    hide Shape, Waits, Ready, Rounds;
    AskTwice(m, addr, isWrite, n, Rounds(Ready(m, addr, isWrite), addr, isWrite, n));
  }

  /** One round of the hit countdown, with the engine working beside it. */
  lemma HitRoundBeside(g: Geometry, c: CacheState, b: Mem, addr: Word, isWrite: bool)
    requires Shape(Cached(g, c, b)) && c.phase.HitWait?
    ensures IsServed(Ready(Cached(g, c, b), addr, isWrite)) == (c.hitRemaining == 0)
    ensures var m := Round(Cached(g, c, b), addr, isWrite);
      m.Cached? && m.g == g && (c.hitRemaining > 0 ==> m.c.phase.HitWait? && m.c.hitRemaining == c.hitRemaining - 1)
  {
    ServiceFrame(g, if c.hitRemaining > 0 then c.(hitRemaining := c.hitRemaining - 1) else c.(phase := Idle));
    hide CacheShape, Begin, ServicePrefetch;
  }

  lemma ServiceFrame(g: Geometry, c: CacheState)
    requires CacheShape(g, c)
    ensures forall served :: var d := ServicePrefetch(g, c, served);
            d.phase == c.phase && d.hitRemaining == c.hitRemaining
  {
    hide SetShape, InstallIn, ChooseVictim, Resident, IndexOf;
  }

  lemma {:induction false} HitBeside(g: Geometry, c: CacheState, b: Mem, addr: Word, isWrite: bool)
    requires Shape(Cached(g, c, b)) && c.phase.HitWait?
    ensures ServedIn(Cached(g, c, b), addr, isWrite, c.hitRemaining + 1)
    decreases c.hitRemaining
  {
    hide Shape, Round, Ready, IsServed, Serves;
    var m := Cached(g, c, b);
    HitRoundBeside(g, c, b, addr, isWrite);
    OneRound(m, addr, isWrite);
    if c.hitRemaining > 0 {
      var n := Round(m, addr, isWrite);
      HitBeside(g, n.c, n.backing, addr, isWrite);
      WaitsMore(m, addr, isWrite, 1);
      WaitThenServed(m, addr, isWrite, 1, n, c.hitRemaining);
    } else {
      ServedAtOnce(m, addr, isWrite);
    }
  }

  /** From a demand phase that fetches: what the port owes, then the hit latency. */
  lemma FetchBeside(g: Geometry, c: CacheState, b: Mem, addr: Word, isWrite: bool)
    requires Shape(Cached(g, c, b)) && Shape(b) && CacheShape(g, c) && b.Flat?
    requires c.phase.MissFetch? || c.phase.PrefetchWait?
    ensures ServedIn(Cached(g, c, b), addr, isWrite, Residual(b) + g.hitLatency)
  {
    hide Shape, Ready, IsServed, CacheShape, Advance, Request, Drives, Rounds, ServedAt, Waits, Fill, Residual,
         ServedIn;
    FetchRequest(g, c, b);
    var n := Residual(b);
    FlatServes(b, c.curAddr, false);
    var b' := Flat(b.latency, false, 0);
    DriveBacking(g, c, b, addr, isWrite, c.curAddr, false, n, n);
    var d := Advance(g, c, true);
    HitBeside(g, d, b', addr, isWrite);
    WaitThenServed(Cached(g, c, b), addr, isWrite, n, Cached(g, d, b'), g.hitLatency);
  }

  lemma FetchRequest(g: Geometry, c: CacheState, b: Mem)
    requires Shape(Cached(g, c, b)) && CacheShape(g, c) && b.Flat? && (c.phase.MissFetch? || c.phase.PrefetchWait?)
    ensures Drives(c) && Request(c) == Some((c.curAddr, false))
    ensures var d := Advance(g, c, true);
      d.phase.HitWait? && d.hitRemaining == g.hitLatency - 1 && Shape(Cached(g, d, Flat(b.latency, false, 0)))
  {
    FillShape(g, c, Flat(b.latency, false, 0));
    hide CacheShape, SetShape, Install;
  }

  /** From WriteBack: first the flush takes over what the port owes, then a whole fetch. */
  lemma FlushBeside(g: Geometry, c: CacheState, b: Mem, addr: Word, isWrite: bool)
    requires Shape(Cached(g, c, b)) && Shape(b) && CacheShape(g, c) && b.Flat? && c.phase.WriteBack?
    ensures ServedIn(Cached(g, c, b), addr, isWrite, Residual(b) + b.latency + g.hitLatency)
  {
    hide Shape, Ready, IsServed, CacheShape, Advance, Request, Drives, Rounds, ServedAt, Waits, Fill, ServedIn;
    FlushFacts(g, c, b);
    var n := Residual(b);
    FlatServes(b, c.wbAddr, true);
    var b' := Flat(b.latency, false, 0);
    DriveBacking(g, c, b, addr, isWrite, c.wbAddr, true, n, n);
    var d := c.(phase := MissFetch);
    FlatShape(b.latency);
    ShapeSwap(g, d, b, b');
    FetchBeside(g, d, b', addr, isWrite);
    WaitThenServed(Cached(g, c, b), addr, isWrite, n, Cached(g, d, b'), b.latency + g.hitLatency);
  }

  lemma FlatShape(l: Pos)
    ensures Shape(Flat(l, false, 0))
  {
  }

  /** The exact cost of an access from an idle demand phase. */
  function AccessCost(g: Geometry, c: CacheState, b: Mem, addr: Word, isWrite: bool): Pos
    requires CacheShape(g, c) && b.Flat?
  {
    match Begin(g, c, addr, isWrite).phase
    case HitWait => g.hitLatency
    case WriteBack => Residual(b) + b.latency + g.hitLatency
    case _ => Residual(b) + g.hitLatency
  }

  lemma Begins(g: Geometry, c: CacheState, b: Mem, addr: Word, isWrite: bool)
    requires Shape(Cached(g, c, b)) && c.phase.Idle?
    ensures var d := Begin(g, c, addr, isWrite);
      && Ready(Cached(g, c, b), addr, isWrite) == Cached(g, d, b)
      && Ready(Cached(g, d, b), addr, isWrite) == Cached(g, d, b)
      && Shape(Cached(g, d, b)) && CacheShape(g, d) && Shape(b) && CacheShape(g, c) && !d.phase.Idle?
      && (d.phase.HitWait? == Resident(g, c, addr))
      && (d.phase.HitWait? ==> d.hitRemaining == g.hitLatency - 1)
      && (d.phase.WriteBack? ==> !Resident(g, c, addr) && DirtyVictim(g, c, addr).Some?)
  {
    hide SetShape, MaybeStartPrefetch, HitIn, FindWay, ChooseVictim, IndexOf, TagOf, LineAddrOf, AddrOf;
  }

  lemma CostBounds(g: Geometry, c: CacheState, b: Mem, addr: Word, isWrite: bool)
    requires Shape(Cached(g, c, b)) && c.phase.Idle? && b.Flat?
    ensures CacheShape(g, c)
    ensures Resident(g, c, addr) ==> AccessCost(g, c, b, addr, isWrite) == g.hitLatency
    ensures !Resident(g, c, addr) && DirtyVictim(g, c, addr).None?
            ==> AccessCost(g, c, b, addr, isWrite) <= b.latency + g.hitLatency
    ensures Begin(g, c, addr, isWrite).phase.PrefetchWait? ==>
            AccessCost(g, c, b, addr, isWrite) <= b.latency + g.hitLatency
    ensures AccessCost(g, c, b, addr, isWrite) <= 2 * b.latency + g.hitLatency
  {
    Begins(g, c, b, addr, isWrite);
    ResidualBound(b);
    hide Shape, Ready, CacheShape, Begin, Resident, DirtyVictim, Residual;
  }

  lemma Dispatch(g: Geometry, c: CacheState, b: Mem, addr: Word, isWrite: bool, d: CacheState)
    requires Shape(Cached(g, d, b)) && Shape(b) && CacheShape(g, d) && b.Flat? && CacheShape(g, c) && !d.phase.Idle?
    requires d == Begin(g, c, addr, isWrite) && (d.phase.HitWait? ==> d.hitRemaining == g.hitLatency - 1)
    ensures ServedIn(Cached(g, d, b), addr, isWrite, AccessCost(g, c, b, addr, isWrite))
  {
    hide Shape, CacheShape, Begin, ServedIn, Residual;
    match d.phase {
      case HitWait => HitBeside(g, d, b, addr, isWrite);
      case WriteBack => FlushBeside(g, d, b, addr, isWrite);
      case _ => FetchBeside(g, d, b, addr, isWrite);
    }
  }

  /** Prefetch never lengthens one access: over flat memory of latency D, from an idle demand phase and
      whatever partial or dropped prefetch occupies the port, an access is served in exactly
      AccessCost rounds: H on a hit, at most D + H on a clean or merged miss, at most 2D + H on a miss
      with a dirty victim. */
  lemma PrefetchNeverLengthens(g: Geometry, c: CacheState, b: Mem, addr: Word, isWrite: bool)
    requires Shape(Cached(g, c, b)) && c.phase.Idle? && b.Flat?
    ensures CacheShape(g, c)
    ensures ServedIn(Cached(g, c, b), addr, isWrite, AccessCost(g, c, b, addr, isWrite))
    ensures Resident(g, c, addr) ==> AccessCost(g, c, b, addr, isWrite) == g.hitLatency
    ensures !Resident(g, c, addr) && DirtyVictim(g, c, addr).None?
            ==> AccessCost(g, c, b, addr, isWrite) <= b.latency + g.hitLatency
    ensures Begin(g, c, addr, isWrite).phase.PrefetchWait? ==>
            AccessCost(g, c, b, addr, isWrite) <= b.latency + g.hitLatency
    ensures AccessCost(g, c, b, addr, isWrite) <= 2 * b.latency + g.hitLatency
  {
    CostBounds(g, c, b, addr, isWrite);
    hide Shape, Ready, CacheShape, Begin, Resident, DirtyVictim, ServedIn, AccessCost;
    Begins(g, c, b, addr, isWrite);
    Dispatch(g, c, b, addr, isWrite, Begin(g, c, addr, isWrite));
    AskTwiceIn(Cached(g, c, b), addr, isWrite, AccessCost(g, c, b, addr, isWrite));
  }
}
