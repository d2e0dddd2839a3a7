/** The exact cost of a held request, with prefetch off: a contract between a level and its client
    that a cache provides when its own backing level provides it.  Hence it holds for any tower of
    caches over flat memory. */
module CacheCost {
  import opened Words
  import opened Hierarchy

  /** No request in progress and no prefetching, at any level. */
  predicate Quiet(m: Mem) {
    match m
    case Flat(_, serving, _) => !serving
    case Cached(g, c, b) => c.phase.Idle? && !g.prefetch && !c.pfActive && Quiet(b)
  }

  // ---- The protocol: the client asks `ready` and then ticks, until it is served ----

  function Round(m: Mem, addr: Word, isWrite: bool): (r: Mem)
    requires Shape(m)
    ensures Shape(r) && Height(r) == Height(m)
  {
    Tick(Ready(m, addr, isWrite))
  }

  function Rounds(m: Mem, addr: Word, isWrite: bool, n: nat): (r: Mem)
    requires Shape(m)
    ensures Shape(r) && Height(r) == Height(m)
  {
    if n == 0 then m else Round(Rounds(m, addr, isWrite, n - 1), addr, isWrite)
  }

  /** Whether the ready call of round n (counted from 0) answers true. */
  predicate ServedAt(m: Mem, addr: Word, isWrite: bool, n: nat)
    requires Shape(m)
  {
    IsServed(Ready(Rounds(m, addr, isWrite, n), addr, isWrite))
  }

  predicate Waits(m: Mem, addr: Word, isWrite: bool, n: nat)
    requires Shape(m)
  {
    forall j | 0 <= j < n :: !ServedAt(m, addr, isWrite, j)
  }

  /** A request held from state m is served in exactly n rounds, and releases into state `next`. */
  predicate Serves(m: Mem, addr: Word, isWrite: bool, n: nat, next: Mem)
    requires Shape(m)
  {
    n > 0 && Waits(m, addr, isWrite, n - 1) && ServedAt(m, addr, isWrite, n - 1) && Rounds(m, addr, isWrite, n) == next
  }

  // ---- The cost table of docs/memory-model.md, on whole accesses ----

  function Rest(c: CacheState): CacheState { c.(phase := Idle, hitRemaining := 0) }

  /** The dirty victim a miss on addr has to flush first, if any. */
  function DirtyVictim(g: Geometry, c: CacheState, addr: Word): Option<Word>
    requires CacheShape(g, c)
  {
    var s := SetAt(g, c, addr);
    var L := s.lines[ChooseVictim(g, s)];
    if L.valid && L.dirty then Some(AddrOf(g, IndexOf(g, addr), L.tag)) else None
  }

  /** The state after one access, from quiet to quiet. */
  function Access(m: Mem, addr: Word, isWrite: bool): (r: Mem)
    requires Shape(m) && Quiet(m)
    ensures Shape(r) && Quiet(r) && Height(r) == Height(m)
    decreases Height(m)
  {
    match m
    case Flat(l, _, _) => Flat(l, false, 0)
    case Cached(g, c, b) =>
      BeginQuiet(g, c, addr, isWrite);
      var c1 := Begin(g, c, addr, isWrite);
      if Resident(g, c, addr) then Cached(g, Rest(c1), b)
      else
        var b1 := if DirtyVictim(g, c, addr).Some? then Access(b, DirtyVictim(g, c, addr).value, true) else b;
        Cached(g, Rest(Fill(g, c1.(phase := MissFetch))), Access(b1, addr, false))
  }

  function Cost(m: Mem, addr: Word, isWrite: bool): (n: Pos)
    requires Shape(m) && Quiet(m)
    decreases Height(m)
  {
    match m
    case Flat(l, _, _) => l
    case Cached(g, c, b) =>
      if Resident(g, c, addr) then g.hitLatency
      else
        match DirtyVictim(g, c, addr)
        case None => Cost(b, addr, false) + g.hitLatency
        case Some(wb) => Cost(b, wb, true) + Cost(Access(b, wb, true), addr, false) + g.hitLatency
  }

  lemma BeginQuiet(g: Geometry, c: CacheState, addr: Word, isWrite: bool)
    requires CacheShape(g, c) && !g.prefetch && !c.pfActive
    ensures var d := Begin(g, c, addr, isWrite);
      && !d.pfActive && d.curAddr == addr && d.curIsWrite == isWrite
      && (if Resident(g, c, addr) then d.phase.HitWait? && d.hitRemaining == g.hitLatency - 1
          else if DirtyVictim(g, c, addr).Some? then d.phase.WriteBack? && d.wbAddr == DirtyVictim(g, c, addr).value
          else d.phase.MissFetch?)
      && (!d.phase.HitWait? ==> d.hitRemaining == c.hitRemaining)
  {
  }

  // ---- Sequencing ----

  lemma {:induction false} RoundsSplit(m: Mem, addr: Word, isWrite: bool, i: nat, j: nat)
    requires Shape(m)
    ensures Rounds(m, addr, isWrite, i + j) == Rounds(Rounds(m, addr, isWrite, i), addr, isWrite, j)
  {
    hide Round, Shape, Height;
    if j > 0 { RoundsSplit(m, addr, isWrite, i, j - 1); }
  }

  lemma WaitThenServe(m: Mem, addr: Word, isWrite: bool, i: nat, mid: Mem, n: nat, next: Mem)
    requires Shape(m) && Waits(m, addr, isWrite, i) && Rounds(m, addr, isWrite, i) == mid
    requires Shape(mid) && Serves(mid, addr, isWrite, n, next)
    ensures Serves(m, addr, isWrite, i + n, next)
  {
    hide Ready, Tick, Shape, IsServed, Round, Rounds, Height;
    forall j | 0 <= j < n
      ensures ServedAt(m, addr, isWrite, i + j) == ServedAt(mid, addr, isWrite, j)
    {
      RoundsSplit(m, addr, isWrite, i, j);
    }
    RoundsSplit(m, addr, isWrite, i, n);
    forall j | 0 <= j < i + n - 1
      ensures !ServedAt(m, addr, isWrite, j)
    {
      if j >= i { assert ServedAt(m, addr, isWrite, i + (j - i)) == ServedAt(mid, addr, isWrite, j - i); }
    }
    assert ServedAt(m, addr, isWrite, i + (n - 1)) == ServedAt(mid, addr, isWrite, n - 1);
  }

  /** Asking twice is asking once, so a request may be taken up after its first ready call. */
  lemma AskTwice(m: Mem, addr: Word, isWrite: bool, n: nat, next: Mem)
    requires Shape(m) && Ready(Ready(m, addr, isWrite), addr, isWrite) == Ready(m, addr, isWrite)
    requires Serves(Ready(m, addr, isWrite), addr, isWrite, n, next)
    ensures Serves(m, addr, isWrite, n, next)
  {
    hide Ready, Tick, Shape, IsServed, Height;
    var m1 := Ready(m, addr, isWrite);
    assert Round(m, addr, isWrite) == Round(m1, addr, isWrite);
    forall j | 0 <= j
      ensures ServedAt(m, addr, isWrite, j) == ServedAt(m1, addr, isWrite, j)
      ensures j > 0 ==> Rounds(m, addr, isWrite, j) == Rounds(m1, addr, isWrite, j)
    {
      SameAfterAsking(m, m1, addr, isWrite, j);
    }
  }

  lemma {:induction false} SameAfterAsking(m: Mem, m1: Mem, addr: Word, isWrite: bool, j: nat)
    requires Shape(m) && Shape(m1) && Round(m, addr, isWrite) == Round(m1, addr, isWrite)
    requires Ready(m, addr, isWrite) == Ready(m1, addr, isWrite)
    ensures ServedAt(m, addr, isWrite, j) == ServedAt(m1, addr, isWrite, j)
    ensures j > 0 ==> Rounds(m, addr, isWrite, j) == Rounds(m1, addr, isWrite, j)
  {
    hide Ready, Tick, Shape, IsServed, Height, Round;
    if j > 0 { SameAfterAsking(m, m1, addr, isWrite, j - 1); }
    if j == 1 {
      assert Rounds(m, addr, isWrite, 1) == Round(Rounds(m, addr, isWrite, 0), addr, isWrite);
      assert Rounds(m1, addr, isWrite, 1) == Round(Rounds(m1, addr, isWrite, 0), addr, isWrite);
    }
  }

  lemma OneRound(m: Mem, addr: Word, isWrite: bool)
    requires Shape(m)
    ensures Waits(m, addr, isWrite, 0) && Rounds(m, addr, isWrite, 0) == m
    ensures Rounds(m, addr, isWrite, 1) == Round(m, addr, isWrite)
    ensures ServedAt(m, addr, isWrite, 0) == IsServed(Ready(m, addr, isWrite))
  {
    hide Ready, Tick, Shape, IsServed, Height, Round;
    assert Rounds(m, addr, isWrite, 1) == Round(Rounds(m, addr, isWrite, 0), addr, isWrite);
  }

  /** A first round that is not served, then a service from there. */
  lemma WaitOnce(m: Mem, addr: Word, isWrite: bool, mid: Mem, n: nat, next: Mem)
    requires Shape(m) && !IsServed(Ready(m, addr, isWrite)) && Round(m, addr, isWrite) == mid
    requires Serves(mid, addr, isWrite, n, next)
    ensures Serves(m, addr, isWrite, n + 1, next)
  {
    hide Ready, Tick, Shape, IsServed, Height, Round, Rounds, Serves, ServedAt;
    OneRound(m, addr, isWrite);
    WaitThenServe(m, addr, isWrite, 1, mid, n, next);
  }

  lemma ServedAtOnce(m: Mem, addr: Word, isWrite: bool)
    requires Shape(m) && IsServed(Ready(m, addr, isWrite))
    ensures Serves(m, addr, isWrite, 1, Round(m, addr, isWrite))
  {
    hide Ready, Tick, Shape, IsServed, Height, Round, Rounds;
    OneRound(m, addr, isWrite);
  }

  // ---- Flat memory ----

  lemma {:induction false} FlatCountdown(l: Pos, rem: nat, addr: Word, isWrite: bool)
    requires rem < l
    ensures Serves(Flat(l, true, rem), addr, isWrite, rem + 1, Flat(l, false, 0))
    decreases rem
  {
    var m := Flat(l, true, rem);
    if rem > 0 {
      FlatCountdown(l, rem - 1, addr, isWrite);
      WaitOnce(m, addr, isWrite, Flat(l, true, rem - 1), rem, Flat(l, false, 0));
    } else {
      ServedAtOnce(m, addr, isWrite);
    }
  }

  // ---- A cache ----

  lemma HitRound(g: Geometry, c: CacheState, b: Mem, addr: Word, isWrite: bool)
    requires Shape(Cached(g, c, b)) && c.phase.HitWait? && !c.pfActive
    ensures IsServed(Ready(Cached(g, c, b), addr, isWrite)) == (c.hitRemaining == 0)
    ensures Round(Cached(g, c, b), addr, isWrite)
            == Cached(g, if c.hitRemaining > 0 then c.(hitRemaining := c.hitRemaining - 1) else Rest(c), b)
  {
    hide CacheShape, Begin;
  }

  lemma {:induction false} HitCountdown(g: Geometry, c: CacheState, b: Mem, addr: Word, isWrite: bool)
    requires Shape(Cached(g, c, b)) && c.phase.HitWait? && !c.pfActive
    ensures Serves(Cached(g, c, b), addr, isWrite, c.hitRemaining + 1, Cached(g, Rest(c), b))
    decreases c.hitRemaining
  {
    hide Shape, Round, Ready, IsServed, Serves;
    var m := Cached(g, c, b);
    HitRound(g, c, b, addr, isWrite);
    if c.hitRemaining > 0 {
      var d := c.(hitRemaining := c.hitRemaining - 1);
      ShapeCountsDown(g, c, b);
      HitCountdown(g, d, b, addr, isWrite);
      WaitOnce(m, addr, isWrite, Cached(g, d, b), c.hitRemaining, Cached(g, Rest(c), b));
    } else {
      ServedAtOnce(m, addr, isWrite);
    }
  }

  lemma ShapeCountsDown(g: Geometry, c: CacheState, b: Mem)
    requires Shape(Cached(g, c, b)) && c.hitRemaining > 0
    ensures Shape(Cached(g, c.(hitRemaining := c.hitRemaining - 1), b))
  {
    hide SetShape;
  }

  /** The demand phases that hold the backing port. */
  predicate Drives(c: CacheState) { c.phase.WriteBack? || c.phase.MissFetch? || c.phase.PrefetchWait? }

  lemma DriveRound(g: Geometry, c: CacheState, b: Mem, addr: Word, isWrite: bool)
    requires Shape(Cached(g, c, b)) && Drives(c)
    ensures var (a, w) := Request(c).value;
      && !IsServed(Ready(Cached(g, c, b), addr, isWrite))
      && Round(Cached(g, c, b), addr, isWrite) == Cached(g, Advance(g, c, IsServed(Ready(b, a, w))), Round(b, a, w))
  {
    hide CacheShape, Begin, Advance;
  }

  lemma RoundsAgain(m: Mem, addr: Word, isWrite: bool, k: nat)
    requires Shape(m) && k > 0
    ensures Rounds(m, addr, isWrite, k) == Round(Rounds(m, addr, isWrite, k - 1), addr, isWrite)
  {
  }

  lemma WaitsMore(m: Mem, addr: Word, isWrite: bool, k: nat)
    requires Shape(m) && k > 0 && Waits(m, addr, isWrite, k - 1) && !ServedAt(m, addr, isWrite, k - 1)
    ensures Waits(m, addr, isWrite, k)
  {
    hide ServedAt;
  }

  lemma DriveStep(g: Geometry, c: CacheState, b: Mem, addr: Word, isWrite: bool, a: Word, w: bool, n: nat, k: nat)
    requires Shape(Cached(g, c, b)) && Shape(b) && Drives(c) && Request(c) == Some((a, w)) && 0 < k <= n
    requires Waits(b, a, w, n - 1) && ServedAt(b, a, w, n - 1)
    requires Rounds(Cached(g, c, b), addr, isWrite, k - 1) == Cached(g, c, Rounds(b, a, w, k - 1))
    requires CacheShape(g, c) && Shape(Cached(g, c, Rounds(b, a, w, k - 1)))
    ensures !ServedAt(Cached(g, c, b), addr, isWrite, k - 1)
    ensures Rounds(Cached(g, c, b), addr, isWrite, k)
            == Cached(g, if k < n then c else Advance(g, c, true), Rounds(b, a, w, k))
  {
    hide Shape, Round, Ready, IsServed, CacheShape, Advance, Request, Drives, Rounds;
    var b1 := Rounds(b, a, w, k - 1);
    DriveRound(g, c, b1, addr, isWrite);
    DriveIdle(g, c);
    RoundsAgain(Cached(g, c, b), addr, isWrite, k);
    RoundsAgain(b, a, w, k);
    assert ServedAt(b, a, w, k - 1) == (k == n);
  }

  /** While the cache drives its backing port it waits exactly as long as the port does. */
  lemma {:induction false} DriveBacking(g: Geometry, c: CacheState, b: Mem, addr: Word, isWrite: bool,
                                        a: Word, w: bool, n: nat, k: nat)
    requires Shape(Cached(g, c, b)) && Shape(b) && CacheShape(g, c)
    requires Drives(c) && Request(c) == Some((a, w)) && k <= n
    requires n > 0 && Waits(b, a, w, n - 1) && ServedAt(b, a, w, n - 1)
    ensures Waits(Cached(g, c, b), addr, isWrite, k)
    ensures Rounds(Cached(g, c, b), addr, isWrite, k)
            == Cached(g, if k < n then c else Advance(g, c, true), Rounds(b, a, w, k))
  {
    hide Shape, Ready, IsServed, CacheShape, Advance, Request, Drives, Rounds, ServedAt, Waits;
    if k > 0 {
      ShapeSwap(g, c, b, Rounds(b, a, w, k - 1));
      DriveBacking(g, c, b, addr, isWrite, a, w, n, k - 1);
      DriveStep(g, c, b, addr, isWrite, a, w, n, k);
      WaitsMore(Cached(g, c, b), addr, isWrite, k);
    } else {
      OneRound(Cached(g, c, b), addr, isWrite);
      OneRound(b, a, w);
    }
  }

  lemma ShapeSwap(g: Geometry, c: CacheState, b: Mem, b1: Mem)
    requires Shape(Cached(g, c, b)) && Shape(b1)
    ensures Shape(Cached(g, c, b1)) && Shape(b) && CacheShape(g, c)
  {
    hide CacheShape;
  }

  lemma DriveIdle(g: Geometry, c: CacheState)
    requires CacheShape(g, c) && Drives(c)
    ensures Advance(g, c, false) == c
  {
  }

  lemma FillShape(g: Geometry, c: CacheState, b: Mem)
    requires CacheShape(g, c) && Shape(b)
    ensures Shape(Cached(g, Fill(g, c), b))
    ensures Fill(g, c).phase.HitWait? && Fill(g, c).hitRemaining == g.hitLatency - 1
    ensures Fill(g, c).pfActive == c.pfActive
  {
    hide CacheShape, SetShape;
  }

  lemma FetchFacts(g: Geometry, c: CacheState)
    requires CacheShape(g, c) && c.phase.MissFetch?
    ensures Drives(c) && Request(c) == Some((c.curAddr, false)) && Advance(g, c, true) == Fill(g, c)
  {
    hide CacheShape, Fill;
  }

  lemma FlushFacts(g: Geometry, c: CacheState, b: Mem)
    requires CacheShape(g, c) && c.phase.WriteBack? && Shape(Cached(g, c, b))
    ensures var d := c.(phase := MissFetch);
      && Drives(c) && Request(c) == Some((c.wbAddr, true)) && Advance(g, c, true) == d
      && CacheShape(g, d) && Shape(Cached(g, d, b))
  {
    hide SetShape, Fill;
  }

  /** From MissFetch: the backing level's service, then the hit latency. */
  lemma FetchAndHit(g: Geometry, c: CacheState, b: Mem, addr: Word, isWrite: bool, n: nat, b': Mem)
    requires Shape(Cached(g, c, b)) && Shape(b) && CacheShape(g, c) && c.phase.MissFetch? && !c.pfActive
    requires Serves(b, c.curAddr, false, n, b')
    ensures Serves(Cached(g, c, b), addr, isWrite, n + g.hitLatency, Cached(g, Rest(Fill(g, c)), b'))
  {
    hide Shape, Ready, IsServed, CacheShape, Advance, Request, Drives, Rounds, ServedAt, Waits, Fill, Rest;
    FetchFacts(g, c);
    DriveBacking(g, c, b, addr, isWrite, c.curAddr, false, n, n);
    FillShape(g, c, b');
    HitCountdown(g, Fill(g, c), b', addr, isWrite);
    WaitThenServe(Cached(g, c, b), addr, isWrite, n, Cached(g, Fill(g, c), b'), g.hitLatency,
        Cached(g, Rest(Fill(g, c)), b'));
  }

  /** From WriteBack: the flush, then the fetch. */
  lemma FlushAndFetch(g: Geometry, c: CacheState, b: Mem, addr: Word, isWrite: bool, n1: nat, b1: Mem, n2: nat, b2: Mem)
    requires Shape(Cached(g, c, b)) && Shape(b) && CacheShape(g, c) && c.phase.WriteBack? && !c.pfActive
    requires Serves(b, c.wbAddr, true, n1, b1)
    requires Shape(b1) && Serves(b1, c.curAddr, false, n2, b2)
    ensures CacheShape(g, c.(phase := MissFetch))
    ensures Serves(Cached(g, c, b), addr, isWrite, n1 + n2 + g.hitLatency,
            Cached(g, Rest(Fill(g, c.(phase := MissFetch))), b2))
  {
    hide Shape, Ready, IsServed, CacheShape, Advance, Request, Drives, Rounds, ServedAt, Waits, Fill, Rest;
    var d := c.(phase := MissFetch);
    FlushFacts(g, c, b);
    ShapeSwap(g, d, b, b1);
    DriveBacking(g, c, b, addr, isWrite, c.wbAddr, true, n1, n1);
    FetchAndHit(g, d, b1, addr, isWrite, n2, b2);
    WaitThenServe(Cached(g, c, b), addr, isWrite, n1, Cached(g, d, b1), n2 + g.hitLatency,
                  Cached(g, Rest(Fill(g, d)), b2));
  }

  /** The first ready call of a quiet cache, and what it leaves to be driven. */
  lemma StartRequest(g: Geometry, c: CacheState, b: Mem, addr: Word, isWrite: bool)
    requires Shape(Cached(g, c, b)) && Quiet(Cached(g, c, b))
    ensures var d := Begin(g, c, addr, isWrite);
      && Ready(Cached(g, c, b), addr, isWrite) == Cached(g, d, b)
      && Ready(Cached(g, d, b), addr, isWrite) == Cached(g, d, b)
      && Shape(Cached(g, d, b)) && CacheShape(g, d) && Shape(b)
  {
    BeginQuiet(g, c, addr, isWrite);
    hide CacheShape, Begin;
  }

  /** Compositional cache cost: at any level of a tower of caches over flat memory, a held request is
      served in exactly Cost rounds and leaves the level in its access state, quiet again. */
  lemma {:induction false} HeldRequest(m: Mem, addr: Word, isWrite: bool)
    requires Shape(m) && Quiet(m)
    ensures Serves(m, addr, isWrite, Cost(m, addr, isWrite), Access(m, addr, isWrite))
    decreases Height(m)
  {
    match m
    case Flat(l, _, _) =>
      FlatCountdown(l, l - 1, addr, isWrite);
      AskTwice(m, addr, isWrite, l, Flat(l, false, 0));
    case Cached(g, c, b) =>
      var d := Begin(g, c, addr, isWrite);
      BeginQuiet(g, c, addr, isWrite);
      StartRequest(g, c, b, addr, isWrite);
      HeldServes(g, c, b, addr, isWrite);
      AskTwice(m, addr, isWrite, Cost(m, addr, isWrite), Access(m, addr, isWrite));
  }

  lemma {:induction false} HeldServes(g: Geometry, c: CacheState, b: Mem, addr: Word, isWrite: bool)
    requires Shape(Cached(g, c, b)) && Quiet(Cached(g, c, b)) && Shape(Cached(g, Begin(g, c, addr, isWrite), b))
    ensures Serves(Cached(g, Begin(g, c, addr, isWrite), b), addr, isWrite,
                   Cost(Cached(g, c, b), addr, isWrite), Access(Cached(g, c, b), addr, isWrite))
    decreases Height(b) + 1, 1
  {
    hide Serves, Begin, Fill, CacheShape, Resident, DirtyVictim;
    var d := Begin(g, c, addr, isWrite);
    BeginQuiet(g, c, addr, isWrite);
    if Resident(g, c, addr) {
      HitCountdown(g, d, b, addr, isWrite);
    } else if DirtyVictim(g, c, addr).Some? {
      HeldDirtyMiss(g, c, b, addr, isWrite, d, DirtyVictim(g, c, addr).value);
    } else {
      HeldRequest(b, addr, false);
      FetchAndHit(g, d, b, addr, isWrite, Cost(b, addr, false), Access(b, addr, false));
      SamePhase(d);
    }
  }

  lemma SamePhase(c: CacheState)
    ensures c.phase.MissFetch? ==> c.(phase := MissFetch) == c
  {
  }

  lemma {:induction false} HeldDirtyMiss(g: Geometry, c: CacheState, b: Mem, addr: Word, isWrite: bool, d: CacheState,
                                         wb: Word)
    requires Shape(Cached(g, c, b)) && Quiet(Cached(g, c, b)) && Shape(Cached(g, d, b))
    requires d == Begin(g, c, addr, isWrite)
    requires !Resident(g, c, addr) && DirtyVictim(g, c, addr) == Some(wb)
    ensures Serves(Cached(g, d, b), addr, isWrite, Cost(Cached(g, c, b), addr, isWrite),
            Access(Cached(g, c, b), addr, isWrite))
    decreases Height(b) + 1, 0
  {
    hide Serves, Begin, Fill, CacheShape, Resident, DirtyVictim;
    BeginQuiet(g, c, addr, isWrite);
    var b1 := Access(b, wb, true);
    HeldRequest(b, wb, true);
    HeldRequest(b1, addr, false);
    FlushAndFetch(g, d, b, addr, isWrite, Cost(b, wb, true), b1, Cost(b1, addr, false), Access(b1, addr, false));
  }
}
