/** How long a caller can wait at any level, prefetching or not, even when it abandons one address for
    another in mid-request: a bound that each unserved ready/tick round strictly lowers. */
module Waiting {
  import opened Words
  import opened Hierarchy
  import opened CacheCost
  import opened PrefetchCost

  /** The most rounds a request can take from any state: a flush, a fetch and the hit latency. */
  function MaxCost(m: Mem): Pos {
    match m
    case Flat(l, _, _) => l
    case Cached(g, _, b) => 2 * MaxCost(b) + g.hitLatency
  }

  /** The most rounds the request in progress, or the next one, can still take. */
  function Left(m: Mem): Pos {
    match m
    case Flat(l, serving, rem) => if serving then rem + 1 else l
    case Cached(g, c, b) =>
      match c.phase
      case Idle => MaxCost(m)
      case HitWait => c.hitRemaining + 1
      case WriteBack => Left(b) + MaxCost(b) + g.hitLatency
      case _ => Left(b) + g.hitLatency
  }

  lemma {:induction false} LeftBound(m: Mem)
    requires Shape(m)
    ensures Left(m) <= MaxCost(m)
  {
    match m
    case Flat(_, _, _) =>
    case Cached(g, c, b) => hide CacheShape; LeftBound(b);
  }

  lemma {:induction false} MaxCostKept(m: Mem, addr: Word, isWrite: bool)
    requires Shape(m)
    ensures MaxCost(Ready(m, addr, isWrite)) == MaxCost(m)
    ensures MaxCost(Tick(m)) == MaxCost(m)
    decreases Height(m)
  {
    match m
    case Flat(_, _, _) =>
    case Cached(g, c, b) =>
      hide CacheShape, Advance, CacheReady, Request;
      if Request(c).Some? {
        MaxCostKept(b, Request(c).value.0, Request(c).value.1);
        MaxCostKept(Ready(b, Request(c).value.0, Request(c).value.1), 0, false);
      }
  }

  /** Asking never lengthens the wait: only a ready call in phase Idle looks at the address. */
  lemma AskKeepsLeft(m: Mem, addr: Word, isWrite: bool)
    requires Shape(m)
    ensures Left(Ready(m, addr, isWrite)) <= Left(m)
  {
    match m
    case Flat(_, _, _) =>
    case Cached(g, c, b) =>
      if c.phase.Idle? { Begins(g, c, b, addr, isWrite); LeftBound(b); }
      hide CacheShape, Begin;
  }

  /** One driven round of a cache, by phase. */
  lemma AdvancePhases(g: Geometry, c: CacheState, served: bool)
    requires CacheShape(g, c)
    ensures var d := Advance(g, c, served);
      && (c.phase.HitWait? && c.hitRemaining > 0 ==> d.phase.HitWait? && d.hitRemaining == c.hitRemaining - 1)
      && (c.phase.WriteBack? ==> d.phase == (if served then MissFetch else WriteBack))
      && ((c.phase.MissFetch? || c.phase.PrefetchWait?)
            ==> if served then d.phase.HitWait? && d.hitRemaining == g.hitLatency - 1 else d.phase == c.phase)
  {
    if c.phase.HitWait? {
      ServiceFrame(g, if c.hitRemaining > 0 then c.(hitRemaining := c.hitRemaining - 1) else c.(phase := Idle));
    }
    hide ServicePrefetch, Install, SetShape;
  }

  lemma {:induction false} RoundLowersLeft(m: Mem, addr: Word, isWrite: bool)
    requires Shape(m) && !IsServed(Ready(m, addr, isWrite))
    ensures Left(Round(m, addr, isWrite)) < Left(m)
    decreases Height(m)
  {
    match m
    case Flat(_, _, _) =>
    case Cached(g, c, b) =>
      AskKeepsLeft(m, addr, isWrite);
      AskedPhase(g, c, b, addr, isWrite);
      TickLowersLeft(g, CacheReady(g, c, addr, isWrite), b);
      hide CacheReady, CacheShape, Left, Tick, Shape;
  }

  lemma AskedPhase(g: Geometry, c: CacheState, b: Mem, addr: Word, isWrite: bool)
    requires Shape(Cached(g, c, b))
    ensures Ready(Cached(g, c, b), addr, isWrite) == Cached(g, CacheReady(g, c, addr, isWrite), b)
    ensures Shape(Cached(g, CacheReady(g, c, addr, isWrite), b)) && !CacheReady(g, c, addr, isWrite).phase.Idle?
  {
    if c.phase.Idle? { Begins(g, c, b, addr, isWrite); }
    hide CacheShape, Begin;
  }

  lemma {:induction false} TickLowersLeft(g: Geometry, c: CacheState, b: Mem)
    requires Shape(Cached(g, c, b)) && !c.phase.Idle? && !Served(c)
    ensures Left(Tick(Cached(g, c, b))) < Left(Cached(g, c, b))
    decreases Height(b) + 1, 0
  {
    hide CacheShape, Advance;
    if c.phase.HitWait? {
      AdvancePhases(g, c, true);
      AdvancePhases(g, c, false);
    } else {
      var (a, w) := Request(c).value;
      var b1 := Ready(b, a, w);
      AdvancePhases(g, c, IsServed(b1));
      LeftBound(Round(b, a, w));
      MaxCostKept(b, a, w);
      MaxCostKept(b1, 0, false);
      if !IsServed(b1) { RoundLowersLeft(b, a, w); }
    }
  }
}
