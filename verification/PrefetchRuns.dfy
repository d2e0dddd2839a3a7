/** How far the prefetch engine gets: when it starts, when a chain goes on, and that a chain left alone
    brings in line after line until it is `degree` lines long or meets an obstacle. */
module PrefetchRuns {
  import opened Words
  import opened Numbers
  import opened PlruTree
  import opened Hierarchy
  import opened CacheCost
  import opened WorkingSet
  import opened Waiting
  import opened Prefetch

  // ---- The sets alone ----

  predicate SetsShape(g: Geometry, sets: seq<CacheSet>) {
    |sets| == g.Sets() && forall i | 0 <= i < |sets| :: SetShape(g, sets[i])
  }

  predicate Holding(g: Geometry, sets: seq<CacheSet>, addr: Word)
    requires SetsShape(g, sets)
  {
    Hits(sets[IndexOf(g, addr)], TagOf(g, addr))
  }

  /** The way the line of addr would go to. */
  function Room(g: Geometry, sets: seq<CacheSet>, addr: Word): (way: nat)
    requires SetsShape(g, sets)
    ensures way < g.WayCount()
  {
    ChooseVictim(g, sets[IndexOf(g, addr)])
  }

  /** What stops a prefetch of addr: it is there already, or it would replace a dirty line. */
  predicate Blocked(g: Geometry, sets: seq<CacheSet>, addr: Word)
    requires SetsShape(g, sets)
  {
    Holding(g, sets, addr) || Dirty(sets[IndexOf(g, addr)].lines[Room(g, sets, addr)])
  }

  /** The sets after a prefetch of addr into way. */
  function Put(g: Geometry, sets: seq<CacheSet>, addr: Word, way: nat): (r: seq<CacheSet>)
    requires SetsShape(g, sets) && way < g.WayCount()
    ensures SetsShape(g, r)
  {
    var i := IndexOf(g, addr);
    sets[i := InstallIn(g, sets[i], way, TagOf(g, addr), false, true)]
  }

  /** The address n lines on. */
  function Along(g: Geometry, addr: Word, n: nat): Word { (addr + n * g.LineBytes()) % 0x1_0000_0000 }

  // ---- One step of the chain ----

  /** The engine with a pending prefetch of addr into way. */
  predicate Pending(c: CacheState, addr: Word, way: nat, chain: nat) {
    c.pfActive && c.pfAddr == addr && c.pfWay == way && c.pfChain == chain
  }

  /** When the pending prefetch is served its line is installed, and the next line is pending, one further
      in the chain, exactly when the chain is shorter than the degree and nothing stops it. */
  lemma ChainContinues(g: Geometry, c: CacheState)
    requires CacheShape(g, c) && SetsShape(g, c.sets) && c.pfActive
    ensures var d := ServicePrefetch(g, c, true); var s := Put(g, c.sets, c.pfAddr, c.pfWay);
      var next := Along(g, c.pfAddr, 1);
      && d.sets == s && d.phase == c.phase
      && (if c.pfChain < g.degree && !Blocked(g, s, next) then Pending(d, next, Room(g, s, next), c.pfChain + 1)
          else !d.pfActive)
  {
    hide SetShape, InstallIn, ChooseVictim, FindWay, IndexOf, TagOf;
  }

  /** A hit on a line with prefetching on and none pending makes the next line pending exactly when nothing
      stops it; a miss likewise, unless the miss itself takes the way. */
  lemma ChainStarts(g: Geometry, c: CacheState, addr: Word, isWrite: bool)
    requires CacheShape(g, c) && SetsShape(g, c.sets) && g.prefetch && !c.pfActive
    ensures var d := Begin(g, c, addr, isWrite); var next := Along(g, LineAddrOf(g, addr), 1);
      var free := !Blocked(g, c.sets, next); var way := Room(g, c.sets, next);
      if Resident(g, c, addr) then if free then Pending(d, next, way, 1) else !d.pfActive
      else if free && !(IndexOf(g, next) == IndexOf(g, addr) && way == d.victimWay) then Pending(d, next, way, 1)
      else !d.pfActive
  {
    NextIsOther(g, LineAddrOf(g, addr));
    hide SetShape, HitIn, ChooseVictim, FindWay, IndexOf, TagOf, LineAddrOf, AddrOf;
  }

  /** A pending prefetch is never replaced by another: a hit, or a miss on its own line, keeps it, and any
      other miss keeps it unless it needs the reserved way. */
  lemma PendingStays(g: Geometry, c: CacheState, addr: Word, isWrite: bool)
    requires CacheShape(g, c) && c.pfActive
    ensures var d := Begin(g, c, addr, isWrite);
      var taken := !Resident(g, c, addr) && LineAddrOf(g, addr) != c.pfAddr
                   && IndexOf(g, c.pfAddr) == IndexOf(g, addr) && c.pfWay == d.victimWay;
      if taken then !d.pfActive else Pending(d, c.pfAddr, c.pfWay, c.pfChain)
  {
    hide SetShape, HitIn, ChooseVictim, FindWay, IndexOf, TagOf, LineAddrOf, AddrOf, Queue;
  }

  lemma NextIsOther(g: Geometry, addr: Word)
    requires g.Fits()
    ensures Along(g, addr, 1) != addr && Along(g, addr, 1) == NextLine(g, addr)
  {
    hide Pow2;
    Pow2Bound(g.offsetBits);
  }

  // ---- A chain left alone ----

  /** The next n lines after the pending one meet no obstacle when the chain reaches them. */
  predicate Clear(g: Geometry, sets: seq<CacheSet>, addr: Word, way: nat, n: nat)
    requires SetsShape(g, sets) && way < g.WayCount()
    decreases n
  {
    n == 0
    || var s := Put(g, sets, addr, way); var next := Along(g, addr, 1);
       !Blocked(g, s, next) && Clear(g, s, next, Room(g, s, next), n - 1)
  }

  /** The sets when the pending line and the next n are in. */
  function After(g: Geometry, sets: seq<CacheSet>, addr: Word, way: nat, n: nat): (r: seq<CacheSet>)
    requires SetsShape(g, sets) && way < g.WayCount()
    ensures SetsShape(g, r)
    decreases n
  {
    var s := Put(g, sets, addr, way);
    if n == 0 then s else var next := Along(g, addr, 1); After(g, s, next, Room(g, s, next), n - 1)
  }

  /** n ticks without a ready call. */
  function Clocked(m: Mem, n: nat): (r: Mem)
    requires Shape(m)
    ensures Shape(r)
  {
    if n == 0 then m else Tick(Clocked(m, n - 1))
  }

  lemma {:induction false} ClockedSplit(m: Mem, i: nat, j: nat)
    requires Shape(m)
    ensures Clocked(m, i + j) == Clocked(Clocked(m, i), j)
  {
    hide Shape, Tick;
    if j > 0 { ClockedSplit(m, i, j - 1); }
  }

  lemma ClockedOnce(m: Mem)
    requires Shape(m)
    ensures Clocked(m, 1) == Tick(m)
  {
    hide Shape, Tick;
    assert Clocked(m, 0) == m;
  }

  /** A cache whose demand side leaves the port to the engine. */
  predicate Free(g: Geometry, m: Mem) {
    m.Cached? && m.g == g && Shape(m) && CacheShape(g, m.c) && SetsShape(g, m.c.sets)
    && (m.c.phase.Idle? || m.c.phase.HitWait?)
  }

  lemma SetsOfShape(g: Geometry, c: CacheState)
    requires CacheShape(g, c)
    ensures SetsShape(g, c.sets)
  {
    hide SetShape;
  }

  /** What a served prefetch makes of the engine. */
  predicate Completes(g: Geometry, c: CacheState, d: CacheState)
    requires SetsShape(g, c.sets) && c.pfWay < g.WayCount()
  {
    var s := Put(g, c.sets, c.pfAddr, c.pfWay);
    var next := Along(g, c.pfAddr, 1);
    && d.sets == s
    && (if c.pfChain < g.degree && !Blocked(g, s, next) then Pending(d, next, Room(g, s, next), c.pfChain + 1)
        else !d.pfActive)
  }

  predicate Unserved(c: CacheState, d: CacheState) {
    d.sets == c.sets && Pending(d, c.pfAddr, c.pfWay, c.pfChain)
  }

  /** One tick of a free cache with a prefetch pending drives the backing port by one round. */
  lemma FreeTick(g: Geometry, m: Mem)
    requires Free(g, m) && m.c.pfActive
    ensures Shape(m.backing) && m.c.pfWay < g.WayCount()
    ensures var n := Tick(m); var b := m.backing; var served := IsServed(Ready(b, m.c.pfAddr, false));
      && Free(g, n) && n.backing == Round(b, m.c.pfAddr, false)
      && if served then Completes(g, m.c, n.c) else Unserved(m.c, n.c)
  {
    hide SetShape, Ready, IsServed, SetsShape, Put, Blocked, ServicePrefetch;
    var c := m.c;
    var c1 := if c.phase.Idle? then c else if c.hitRemaining > 0 then c.(hitRemaining := c.hitRemaining - 1)
      else c.(phase := Idle);
    TickServes(g, c, m.backing);
    ChainContinues(g, c1);
    ServesNothing(g, c1);
    SetsOfShape(g, Tick(m).c);
  }

  lemma ServesNothing(g: Geometry, c: CacheState)
    requires CacheShape(g, c)
    ensures ServicePrefetch(g, c, false) == c
  {
    hide CacheShape;
  }

  /** A pending prefetch completes within the time a request can take. */
  lemma {:induction false} OneCompletes(g: Geometry, m: Mem) returns (k: nat)
    requires Free(g, m) && m.c.pfActive && m.c.pfWay < g.WayCount()
    ensures k <= Left(m.backing)
    ensures var n := Clocked(m, k);
      Free(g, n) && Completes(g, m.c, n.c) && Shape(n.backing) && MaxCost(n.backing) == MaxCost(m.backing)
    decreases Left(m.backing)
  {
    hide Free, SetShape, SetsShape, Shape, Ready, Tick, IsServed, Completes, Left, MaxCost, Clocked;
    FreeTick(g, m);
    FreeParts(g, m);
    var b, a := m.backing, m.c.pfAddr;
    MaxCostKept(b, a, false);
    MaxCostKept(Ready(b, a, false), 0, false);
    ClockedOnce(m);
    if IsServed(Ready(b, a, false)) {
      k := 1;
    } else {
      RoundLowersLeft(b, a, false);
      var n := Tick(m);
      k := OneCompletes(g, n);
      ClockedSplit(m, 1, k);
      FreeParts(g, Clocked(n, k));
      SameStart(g, m.c, n.c, Clocked(n, k).c);
      k := k + 1;
    }
  }

  lemma FreeParts(g: Geometry, m: Mem)
    requires Free(g, m)
    ensures m.Cached? && Shape(m) && Shape(m.backing) && SetsShape(g, m.c.sets)
  {
    hide SetsShape, CacheShape;
  }

  lemma SameStart(g: Geometry, c: CacheState, d: CacheState, e: CacheState)
    requires SetsShape(g, c.sets) && c.pfWay < g.WayCount() && Unserved(c, d) && Completes(g, d, e)
    ensures Completes(g, c, e)
  {
    hide SetsShape, Put, Blocked, Room;
  }

  /** Whether a chain n lines on from a pending one ends there. */
  predicate Ends(g: Geometry, c: CacheState, n: nat)
    requires SetsShape(g, c.sets) && c.pfWay < g.WayCount()
  {
    c.pfChain + n >= g.degree || Blocked(g, After(g, c.sets, c.pfAddr, c.pfWay, n), Along(g, c.pfAddr, n + 1))
  }

  lemma SumWraps(a: nat, p: nat, x: nat)
    ensures ((a + p) % 0x1_0000_0000 + x) % 0x1_0000_0000 == (a + (x + p)) % 0x1_0000_0000
  {
  }

  lemma OneMore(n: nat, p: nat)
    ensures (n + 1) * p == n * p + p
  {
  }

  lemma AlongStep(g: Geometry, addr: Word, n: nat)
    ensures Along(g, Along(g, addr, 1), n) == Along(g, addr, n + 1)
  {
    hide Pow2;
    OneMore(n, g.LineBytes());
    SumWraps(addr, g.LineBytes(), n * g.LineBytes());
  }

  /** A chain left alone runs on for as many lines as are clear, up to the degree, and stops there: after
      at most one request time for each line all of them have been installed and nothing is pending. */
  lemma {:induction false} ChainRuns(g: Geometry, m: Mem, n: nat) returns (k: nat)
    requires Free(g, m) && m.c.pfActive && m.c.pfWay < g.WayCount() && m.c.pfChain + n <= g.degree
    requires Clear(g, m.c.sets, m.c.pfAddr, m.c.pfWay, n) && Ends(g, m.c, n)
    ensures k <= (n + 1) * MaxCost(m.backing)
    ensures var r := Clocked(m, k);
      Free(g, r) && !r.c.pfActive && r.c.sets == After(g, m.c.sets, m.c.pfAddr, m.c.pfWay, n)
    decreases n
  {
    hide Free, SetShape, SetsShape, Shape, Tick, Left, MaxCost, Clocked, Put, Blocked, Room;
    FreeParts(g, m);
    k := OneCompletes(g, m);
    LeftBound(m.backing);
    var d := Clocked(m, k);
    if n > 0 {
      AlongStep(g, m.c.pfAddr, n);
      hide Along;
      var j := ChainRuns(g, d, n - 1);
      ClockedSplit(m, k, j);
      FreeParts(g, d);
      assert (n + 1) * MaxCost(m.backing) == n * MaxCost(m.backing) + MaxCost(m.backing);
      k := k + j;
    }
  }

  // ---- The lines of a chain stay ----

  /** The lines of a chain as a sequence of reads. */
  function Burst(g: Geometry, addr: Word, n: nat): seq<Req>
    decreases n
  {
    [Req(addr, false)] + if n == 0 then [] else Burst(g, Along(g, addr, 1), n - 1)
  }

  /** Each set keeps the lines of `past` that fall into it. */
  predicate KeepsAll(g: Geometry, sets: seq<CacheSet>, past: seq<Req>) {
    forall i: nat | i < |sets| :: WorkingSet.Kept(sets[i], TagsIn(g, i, past))
  }

  /** No set is asked to keep more than log2(ways) + 1 lines. */
  predicate Fit(g: Geometry, reqs: seq<Req>) {
    forall i: nat | i < g.Sets() :: |TagsIn(g, i, reqs)| <= g.wayBits + 1
  }

  lemma TagsOfPrefix(g: Geometry, i: nat, a: seq<Req>, b: seq<Req>)
    ensures TagsIn(g, i, a) <= TagsIn(g, i, a + b) && |TagsIn(g, i, a)| <= |TagsIn(g, i, a + b)|
  {
    hide IndexOf, TagOf;
    forall x | x in TagsIn(g, i, a) ensures x in TagsIn(g, i, a + b) {
      var k :| 0 <= k < |a| && IndexOf(g, a[k].addr) == i && TagOf(g, a[k].addr) == x;
      assert (a + b)[k] == a[k];
    }
    SubsetSize(TagsIn(g, i, a), TagsIn(g, i, a + b));
  }

  lemma PutKeeps(g: Geometry, sets: seq<CacheSet>, addr: Word, way: nat, past: seq<Req>)
    requires SetsShape(g, sets) && way < g.WayCount() && KeepsAll(g, sets, past) && !Holding(g, sets, addr)
    requires way !in WaysFor(sets[IndexOf(g, addr)], TagsIn(g, IndexOf(g, addr), past))
    ensures KeepsAll(g, Put(g, sets, addr, way), past + [Req(addr, false)])
  {
    var i := IndexOf(g, addr);
    var now := past + [Req(addr, false)];
    InstallKeeps(g, sets[i], TagsIn(g, i, past), way, TagOf(g, addr), false, true);
    hide IndexOf, TagOf, WorkingSet.Kept, InstallIn, SetShape, TagsIn, Hits, WaysFor;
    assert now[..|now| - 1] == past && now[|now| - 1].addr == addr;
    forall j: nat | j < |sets| ensures WorkingSet.Kept(Put(g, sets, addr, way)[j], TagsIn(g, j, now)) {
      TagsInLast(g, j, now);
    }
  }

  /** The way chosen for a line that is not there holds none of the lines to keep. */
  lemma RoomSpares(g: Geometry, sets: seq<CacheSet>, addr: Word, past: seq<Req>)
    requires SetsShape(g, sets) && KeepsAll(g, sets, past) && !Holding(g, sets, addr)
    requires Fit(g, past + [Req(addr, false)])
    ensures Room(g, sets, addr) !in WaysFor(sets[IndexOf(g, addr)], TagsIn(g, IndexOf(g, addr), past))
  {
    var i, tag := IndexOf(g, addr), TagOf(g, addr);
    var t, now := TagsIn(g, i, past), past + [Req(addr, false)];
    hide IndexOf, TagOf, SetShape, TagsIn, Hits, WaysFor, ChooseVictim;
    assert now[..|now| - 1] == past && now[|now| - 1].addr == addr;
    TagsInLast(g, i, now);
    assert WorkingSet.Kept(sets[i], t);
    assert tag !in t;
    assert |t + {tag}| == |t| + 1;
    VictimSpares(g, sets[i], t);
  }

  lemma {:induction false} AfterKeeps(g: Geometry, sets: seq<CacheSet>, addr: Word, way: nat, n: nat, past: seq<Req>)
    requires SetsShape(g, sets) && way < g.WayCount() && KeepsAll(g, sets, past) && !Holding(g, sets, addr)
    requires way !in WaysFor(sets[IndexOf(g, addr)], TagsIn(g, IndexOf(g, addr), past))
    requires Clear(g, sets, addr, way, n) && Fit(g, past + Burst(g, addr, n))
    ensures KeepsAll(g, After(g, sets, addr, way, n), past + Burst(g, addr, n))
    decreases n
  {
    hide IndexOf, SetShape, SetsShape, TagsIn, Put, WaysFor, KeepsAll, Fit, Room, Along, Holding, Blocked, TagOf, Burst;
    PutKeeps(g, sets, addr, way, past);
    var s, now := Put(g, sets, addr, way), past + [Req(addr, false)];
    BurstMore(g, addr, n, past);
    if n > 0 {
      var next := Along(g, addr, 1);
      FirstFits(g, now, next, n - 1);
      NotHeld(g, s, next);
      RoomSpares(g, s, next, now);
      AfterKeeps(g, s, next, Room(g, s, next), n - 1, now);
    }
  }

  lemma BurstMore(g: Geometry, addr: Word, n: nat, past: seq<Req>)
    ensures var now := past + [Req(addr, false)];
      past + Burst(g, addr, n) == if n == 0 then now else now + Burst(g, Along(g, addr, 1), n - 1)
  {
    hide Along;
  }

  lemma NotHeld(g: Geometry, sets: seq<CacheSet>, addr: Word)
    requires SetsShape(g, sets) && !Blocked(g, sets, addr)
    ensures !Holding(g, sets, addr)
  {
  }

  lemma FirstFits(g: Geometry, past: seq<Req>, addr: Word, n: nat)
    requires Fit(g, past + Burst(g, addr, n))
    ensures Fit(g, past + [Req(addr, false)])
  {
    hide TagsIn;
    var first := [Req(addr, false)];
    var rest := Burst(g, addr, n)[1..];
    assert past + Burst(g, addr, n) == (past + first) + rest;
    forall i: nat | i < g.Sets() ensures |TagsIn(g, i, past + first)| <= g.wayBits + 1 {
      TagsOfPrefix(g, i, past + first, rest);
    }
  }

  /** Line j of a chain. */
  lemma {:induction false} BurstAt(g: Geometry, addr: Word, n: nat, j: nat)
    requires j <= n
    ensures |Burst(g, addr, n)| == n + 1 && Burst(g, addr, n)[j] == Req(Along(g, addr, j), false)
    decreases n
  {
    hide Pow2;
    if n > 0 {
      BurstAt(g, Along(g, addr, 1), n - 1, if j > 0 then j - 1 else 0);
      if j > 0 { AlongStep(g, addr, j - 1); }
    }
    if j == 0 { assert Along(g, addr, 0) == addr; }
  }

  /** With at most log2(ways) + 1 lines of the chain in each set, every line of it is there at the end. */
  lemma ChainStays(g: Geometry, sets: seq<CacheSet>, addr: Word, way: nat, n: nat, j: nat)
    requires SetsShape(g, sets) && way < g.WayCount() && !Holding(g, sets, addr) && j <= n
    requires Clear(g, sets, addr, way, n) && Fit(g, Burst(g, addr, n))
    ensures Holding(g, After(g, sets, addr, way, n), Along(g, addr, j))
  {
    hide IndexOf, TagOf, SetShape, Put, Along, Blocked, Hits, Clear;
    forall i: nat | i < |sets| ensures WorkingSet.Kept(sets[i], TagsIn(g, i, [])) {
      assert TagsIn(g, i, []) == {};
      KeptNothing(sets[i]);
    }
    assert TagsIn(g, IndexOf(g, addr), []) == {};
    assert [] + Burst(g, addr, n) == Burst(g, addr, n);
    AfterKeeps(g, sets, addr, way, n, []);
    BurstAt(g, addr, n, j);
    var a := Along(g, addr, j);
    assert TagOf(g, a) in TagsIn(g, IndexOf(g, a), Burst(g, addr, n));
    hide After, Burst;
  }

  // ---- Up to as many lines as there are sets ----

  lemma ModMore(x: int, s: nat, k: int)
    requires s > 0
    ensures (x + s * k) % s == x % s
  {
    assert x + s * k == s * (x / s + k) + x % s;
    DivIs(x + s * k, s, x / s + k, x % s);
  }

  lemma ModNext(x: int, s: nat)
    requires s > 0
    ensures (x + 1) % s == (x % s + 1) % s
  {
    ModMore(x % s + 1, s, x / s);
    assert x + 1 == x % s + 1 + s * (x / s);
  }

  /** 2^32 is a whole number of rounds over all sets. */
  lemma Whole(g: Geometry) returns (r: nat)
    requires g.Fits()
    ensures g.LineBytes() * (g.Sets() * r) == 0x1_0000_0000
  {
    hide Pow2;
    var rest: nat := 32 - g.offsetBits - g.indexBits;
    r := Pow2(rest);
    Pow2Of32();
    Pow2Sum(g.indexBits, rest);
    Pow2Sum(g.offsetBits, g.indexBits + rest);
  }

  lemma Unwrapped(addr: Word, p: nat)
    requires p > 0
    ensures (addr + p) / p == addr / p + 1
  {
    assert addr == p * (addr / p) + addr % p;
    assert addr + p == p * (addr / p + 1) + addr % p;
    DivIs(addr + p, p, addr / p + 1, addr % p);
  }

  lemma RoundTheSets(q: int, s: nat, r: nat)
    requires s > 0
    ensures (q + 1) % s == (q % s + 1) % s && (q + 1 - s * r) % s == (q % s + 1) % s
  {
    ModNext(q, s);
    ModMore(q + 1 - s * r, s, r);
  }

  /** p bytes on from addr is one line on, less all n lines where the address space wraps around. */
  lemma Wrapped(addr: Word, p: nat, n: nat)
    requires 0 < p < 0x1_0000_0000 && p * n == 0x1_0000_0000 <= addr + p
    ensures (addr + p) % 0x1_0000_0000 / p == addr / p + 1 - n
  {
    var z, q := addr + p - 0x1_0000_0000, addr / p;
    assert addr == p * q + addr % p;
    assert p * (q + 1 - n) == p * q + p - p * n;
    DivIs(z, p, q + 1 - n, addr % p);
  }

  lemma NextQuotient(addr: Word, p: nat, s: nat, r: nat)
    requires 0 < p < 0x1_0000_0000 && s > 0 && p * (s * r) == 0x1_0000_0000
    ensures (addr + p) % 0x1_0000_0000 / p % s == (addr / p % s + 1) % s
  {
    RoundTheSets(addr / p, s, r);
    if addr + p < 0x1_0000_0000 { Unwrapped(addr, p); } else { Wrapped(addr, p, s * r); }
  }

  /** Consecutive lines are in consecutive sets. */
  lemma NextSet(g: Geometry, addr: Word)
    requires g.Fits()
    ensures IndexOf(g, Along(g, addr, 1)) == (IndexOf(g, addr) + 1) % g.Sets()
  {
    hide Pow2, IndexOf, Along, Geometry.LineBytes, Geometry.Sets;
    AddressFields(g, addr);
    AddressFields(g, Along(g, addr, 1));
    AlongOnce(g, addr);
    LinesAreSmall(g);
    var r := Whole(g);
    NextQuotient(addr, g.LineBytes(), g.Sets(), r);
  }

  lemma LinesAreSmall(g: Geometry)
    requires g.Fits()
    ensures g.LineBytes() < 0x1_0000_0000
  {
    hide Pow2;
    Pow2Bound(g.offsetBits);
  }

  lemma AlongOnce(g: Geometry, addr: Word)
    ensures Along(g, addr, 1) == (addr + g.LineBytes()) % 0x1_0000_0000
  {
    hide Pow2;
  }

  lemma {:induction false} BurstSet(g: Geometry, addr: Word, n: nat, j: nat)
    requires g.Fits() && j <= n
    ensures |Burst(g, addr, n)| == n + 1 && IndexOf(g, Burst(g, addr, n)[j].addr) == (IndexOf(g, addr) + j) % g.Sets()
    decreases n
  {
    hide Pow2, IndexOf, Along;
    if j > 0 {
      BurstSet(g, Along(g, addr, 1), n - 1, j - 1);
      NextSet(g, addr);
      ModStep(IndexOf(g, addr), g.Sets(), j - 1);
    } else {
      BurstAt(g, addr, n, 0);
      BurstHead(g, addr, n);
    }
  }

  lemma BurstHead(g: Geometry, addr: Word, n: nat)
    ensures |Burst(g, addr, n)| > 0 && Burst(g, addr, n)[0].addr == addr
  {
    hide Along;
  }

  lemma ModStep(x: nat, s: nat, j: nat)
    requires s > 0
    ensures ((x + 1) % s + j) % s == (x + (j + 1)) % s && (x < s ==> x % s == x)
  {
    ModMore((x + 1) % s + j, s, (x + 1) / s);
    assert x + 1 == (x + 1) % s + s * ((x + 1) / s);
    if x < s { DivIs(x, s, 0, x); }
  }

  lemma SetsApart(x: nat, s: nat, j: nat, k: nat)
    requires j < s && k < s && (x + j) % s == (x + k) % s
    ensures j == k
  {
    var a, b := (x + j) / s, (x + k) / s;
    assert x + j == s * a + (x + j) % s && x + k == s * b + (x + k) % s;
    if a < b { MulGrows(s, a, b); }
    if b < a { MulGrows(s, b, a); }
  }

  lemma AtMostOne(t: set<nat>)
    requires forall x, y | x in t && y in t :: x == y
    ensures |t| <= 1
  {
    if t != {} {
      var x :| x in t;
      assert t == {x};
    }
  }

  lemma OnePerSet(g: Geometry, addr: Word, n: nat, i: nat)
    requires g.Fits() && n < g.Sets()
    ensures |TagsIn(g, i, Burst(g, addr, n))| <= 1
  {
    hide IndexOf, TagOf, Pow2, Geometry.Sets, Along, Burst;
    var reqs := Burst(g, addr, n);
    BurstAt(g, addr, n, 0);
    forall x, y | x in TagsIn(g, i, reqs) && y in TagsIn(g, i, reqs) ensures x == y {
      var j :| 0 <= j < |reqs| && IndexOf(g, reqs[j].addr) == i && TagOf(g, reqs[j].addr) == x;
      var k :| 0 <= k < |reqs| && IndexOf(g, reqs[k].addr) == i && TagOf(g, reqs[k].addr) == y;
      BurstSet(g, addr, n, j);
      BurstSet(g, addr, n, k);
      SetsApart(IndexOf(g, addr), g.Sets(), j, k);
    }
    AtMostOne(TagsIn(g, i, reqs));
  }

  /** A chain of at most as many lines as there are sets puts at most one line into each. */
  lemma ShortChainFits(g: Geometry, addr: Word, n: nat)
    requires g.Fits() && n < g.Sets()
    ensures Fit(g, Burst(g, addr, n))
  {
    hide TagsIn, Burst, Geometry.Sets;
    forall i: nat | i < g.Sets() ensures |TagsIn(g, i, Burst(g, addr, n))| <= g.wayBits + 1 {
      OnePerSet(g, addr, n, i);
    }
  }

  // ---- The engine does its work ----

  /** The prefetched lines are there: the pending one and the next n. */
  predicate Fetched(g: Geometry, c: CacheState, addr: Word, n: nat)
    requires CacheShape(g, c)
  {
    forall j | 0 <= j <= n :: Resident(g, c, Along(g, addr, j))
  }

  lemma ChainFetches(g: Geometry, sets: seq<CacheSet>, addr: Word, way: nat, n: nat, c: CacheState)
    requires SetsShape(g, sets) && way < g.WayCount() && !Holding(g, sets, addr)
    requires Clear(g, sets, addr, way, n) && Fit(g, Burst(g, addr, n))
    requires CacheShape(g, c) && c.sets == After(g, sets, addr, way, n)
    ensures Fetched(g, c, addr, n)
  {
    hide SetShape, Along, After, Clear, Burst, Fit, IndexOf, TagOf, FindWay;
    forall j | 0 <= j <= n ensures Resident(g, c, Along(g, addr, j)) { ChainStays(g, sets, addr, way, n, j); }
  }

  lemma AtIdle(g: Geometry, m: Mem)
    requires Free(g, m)
    ensures CacheShape(g, m.c) && SetsShape(g, m.c.sets) && m.c.pfWay < g.WayCount()
  {
    hide SetShape;
  }

  /** A pending prefetch left alone, its line not resident: within one request time of the backing level
      for each line, the pending line and each of the next n are resident and nothing is pending, where n
      is the number of lines up to the degree or the first obstacle; as long as the chain is no longer than
      there are sets, or puts at most log2(ways) + 1 lines into any of them. */
  lemma PrefetchesArrive(g: Geometry, m: Mem, n: nat) returns (k: nat)
    requires Free(g, m) && m.c.pfActive && !Resident(g, m.c, m.c.pfAddr)
    requires m.c.pfWay < g.WayCount() && m.c.pfChain + n <= g.degree
    requires Clear(g, m.c.sets, m.c.pfAddr, m.c.pfWay, n) && Ends(g, m.c, n)
    requires n < g.Sets() || Fit(g, Burst(g, m.c.pfAddr, n))
    ensures k <= (n + 1) * MaxCost(m.backing)
    ensures var r := Clocked(m, k); Free(g, r) && !r.c.pfActive && Fetched(g, r.c, m.c.pfAddr, n)
  {
    hide SetsShape, Shape, Clocked, Clear, Ends, Burst, Fit, SetShape, Along, Put, Blocked, Room, Fetched, After;
    k := ChainRuns(g, m, n);
    if n < g.Sets() { ShortChainFits(g, m.c.pfAddr, n); }
    AtIdle(g, m);
    AtIdle(g, Clocked(m, k));
    NotThere(g, m.c);
    ChainFetches(g, m.c.sets, m.c.pfAddr, m.c.pfWay, n, Clocked(m, k).c);
  }

  lemma NotThere(g: Geometry, c: CacheState)
    requires CacheShape(g, c) && SetsShape(g, c.sets) && !Resident(g, c, c.pfAddr)
    ensures !Holding(g, c.sets, c.pfAddr) && g.Fits()
  {
    hide SetShape, FindWay, IndexOf, TagOf;
  }

  // ---- Obstacles seen from the start ----

  /** Fewer lines on than there are sets, the set is another one. */
  lemma OtherSet(g: Geometry, addr: Word, j: nat)
    requires g.Fits() && 0 < j < g.Sets()
    ensures IndexOf(g, Along(g, addr, j)) != IndexOf(g, addr)
  {
    hide Pow2, IndexOf, Along, Geometry.Sets;
    BurstAt(g, addr, j, j);
    BurstSet(g, addr, j, j);
    BurstSet(g, addr, j, 0);
    BurstHead(g, addr, j);
    if IndexOf(g, Along(g, addr, j)) == IndexOf(g, addr) { SetsApart(IndexOf(g, addr), g.Sets(), 0, j); }
  }

  /** A prefetch changes nothing for lines of other sets. */
  lemma PutElsewhere(g: Geometry, sets: seq<CacheSet>, addr: Word, way: nat, j: nat)
    requires SetsShape(g, sets) && way < g.WayCount() && g.Fits() && 0 < j < g.Sets()
    ensures Blocked(g, Put(g, sets, addr, way), Along(g, addr, j)) == Blocked(g, sets, Along(g, addr, j))
  {
    hide IndexOf, TagOf, SetShape, Along, InstallIn, ChooseVictim, Hits, Geometry.Sets;
    OtherSet(g, addr, j);
  }

  lemma {:induction false} AfterElsewhere(g: Geometry, sets: seq<CacheSet>, addr: Word, way: nat, n: nat, j: nat)
    requires SetsShape(g, sets) && way < g.WayCount() && g.Fits() && n < j < g.Sets()
    ensures Blocked(g, After(g, sets, addr, way, n), Along(g, addr, j)) == Blocked(g, sets, Along(g, addr, j))
    decreases n
  {
    hide SetsShape, Put, Along, Blocked, Room, Geometry.Sets;
    PutElsewhere(g, sets, addr, way, j);
    if n > 0 {
      var s, next := Put(g, sets, addr, way), Along(g, addr, 1);
      AlongStep(g, addr, j - 1);
      AfterElsewhere(g, s, next, Room(g, s, next), n - 1, j - 1);
    }
  }

  /** For a chain shorter than the number of sets, what the chain will find is what is there now. */
  lemma {:induction false} ClearNow(g: Geometry, sets: seq<CacheSet>, addr: Word, way: nat, n: nat)
    requires SetsShape(g, sets) && way < g.WayCount() && g.Fits() && n < g.Sets()
    ensures Clear(g, sets, addr, way, n) <==> forall j | 1 <= j <= n :: !Blocked(g, sets, Along(g, addr, j))
    decreases n
  {
    hide SetsShape, Put, Along, Blocked, Room, Geometry.Sets;
    if n > 0 {
      var s, next := Put(g, sets, addr, way), Along(g, addr, 1);
      ClearNow(g, s, next, Room(g, s, next), n - 1);
      forall j | 1 <= j <= n ensures Blocked(g, s, Along(g, addr, j)) == Blocked(g, sets, Along(g, addr, j)) {
        PutElsewhere(g, sets, addr, way, j);
      }
      forall j | 1 <= j <= n - 1 ensures Along(g, next, j) == Along(g, addr, j + 1) { AlongStep(g, addr, j); }
      assert forall j | 1 <= j <= n :: j == 1 || Along(g, addr, j) == Along(g, next, j - 1);
    }
  }

  /** The engine after a hit in an idle cache with nothing pending. */
  lemma HitStarts(g: Geometry, m: Mem, addr: Word, isWrite: bool)
    requires Free(g, m) && m.c.phase.Idle? && g.prefetch && !m.c.pfActive && Resident(g, m.c, addr)
    requires !Blocked(g, m.c.sets, Along(g, LineAddrOf(g, addr), 1))
    ensures var r := Ready(m, addr, isWrite); var next := Along(g, LineAddrOf(g, addr), 1);
      && Free(g, r) && r.backing == m.backing && Pending(r.c, next, Room(g, m.c.sets, next), 1)
      && !Resident(g, r.c, next)
      && r.c.sets == m.c.sets[IndexOf(g, addr) := r.c.sets[IndexOf(g, addr)]]
  {
    var c := m.c;
    var w := WayOf(g, c, addr);
    var d := Begin(g, c, addr, isWrite);
    var next := Along(g, LineAddrOf(g, addr), 1);
    ChainStarts(g, c, addr, isWrite);
    BeginCases(g, c, addr, isWrite);
    HitResident(g, c, IndexOf(g, addr), w, isWrite, d, next);
    assert Resident(g, c, next) == Holding(g, c.sets, next);
    SetsOfShape(g, d);
    hide Begin, MaybeStartPrefetch, SetsShape, CacheShape, SetShape, HitIn, FindWay, IndexOf, TagOf, LineAddrOf, Along,
         Room, Blocked;
  }

  lemma SameElsewhere(g: Geometry, sets: seq<CacheSet>, now: seq<CacheSet>, addr: Word, j: nat)
    requires SetsShape(g, sets) && SetsShape(g, now) && g.Fits() && 0 < j < g.Sets()
    requires now == sets[IndexOf(g, addr) := now[IndexOf(g, addr)]]
    ensures Blocked(g, now, Along(g, LineAddrOf(g, addr), j)) == Blocked(g, sets, Along(g, LineAddrOf(g, addr), j))
  {
    hide IndexOf, TagOf, SetShape, Along, ChooseVictim, Hits, Geometry.Sets, LineAddrOf;
    LineBase(g, addr);
    OtherSet(g, LineAddrOf(g, addr), j);
  }

  /** One hit in an idle cache with prefetching on and nothing pending, then ticks only: if the lines 1 to s
      after the accessed one are not resident and would replace no dirty line, and s is the degree or the
      next line is an obstacle, then within s request times of the backing level all s of them are resident
      and nothing is pending. */
  lemma HitFetchesAhead(g: Geometry, m: Mem, addr: Word, isWrite: bool, s: nat) returns (k: nat)
    requires Free(g, m) && m.c.phase.Idle? && g.prefetch && !m.c.pfActive && Resident(g, m.c, addr)
    requires 1 <= s <= g.degree < g.Sets()
    requires forall j | 1 <= j <= s :: !Blocked(g, m.c.sets, Along(g, LineAddrOf(g, addr), j))
    requires s == g.degree || Blocked(g, m.c.sets, Along(g, LineAddrOf(g, addr), s + 1))
    ensures k <= s * MaxCost(m.backing)
    ensures var r := Clocked(Ready(m, addr, isWrite), k);
      && Free(g, r) && !r.c.pfActive
      && forall j | 1 <= j <= s :: Resident(g, r.c, Along(g, LineAddrOf(g, addr), j))
  {
    hide SetsShape, Shape, Clocked, Burst, Fit, SetShape, Along, Put, Blocked, Room, After, LineAddrOf, Ready, IndexOf,
         Geometry.Sets, Clear;
    var base := LineAddrOf(g, addr);
    var next := Along(g, base, 1);
    var r := Ready(m, addr, isWrite);
    HitStarts(g, m, addr, isWrite);
    AtIdle(g, r);
    AtIdle(g, m);
    NotThere(g, r.c);
    Shifted(g, m.c.sets, r.c.sets, addr, s);
    ClearNow(g, r.c.sets, next, r.c.pfWay, s - 1);
    if s < g.degree { AfterElsewhere(g, r.c.sets, next, r.c.pfWay, s - 1, s); }
    k := PrefetchesArrive(g, r, s - 1);
    forall j | 1 <= j <= s ensures Along(g, next, j - 1) == Along(g, base, j) { AlongStep(g, base, j - 1); }
  }

  /** The lines after the accessed one, counted from the first of them. */
  lemma Shifted(g: Geometry, sets: seq<CacheSet>, now: seq<CacheSet>, addr: Word, s: nat)
    requires SetsShape(g, sets) && SetsShape(g, now) && g.Fits() && 1 <= s < g.Sets()
    requires now == sets[IndexOf(g, addr) := now[IndexOf(g, addr)]]
    ensures var base := LineAddrOf(g, addr); var next := Along(g, base, 1);
      forall j | 1 <= j <= s && j + 1 < g.Sets() ::
        Blocked(g, now, Along(g, next, j)) == Blocked(g, sets, Along(g, base, j + 1))
  {
    hide SetsShape, Along, Blocked, LineAddrOf, IndexOf, Geometry.Sets;
    var base := LineAddrOf(g, addr);
    forall j | 1 <= j <= s && j + 1 < g.Sets()
      ensures Blocked(g, now, Along(g, Along(g, base, 1), j)) == Blocked(g, sets, Along(g, base, j + 1))
    {
      AlongStep(g, base, j);
      SameElsewhere(g, sets, now, addr, j + 1);
    }
  }

  /** Beyond that a chain can wrap around and replace its own lines: in a cache of one line, a chain of two
      meets no obstacle and leaves only its second line. */
  lemma ChainCanWrap()
    ensures exists g: Geometry, sets: seq<CacheSet>, addr: Word | g.Fits() && SetsShape(g, sets) ::
              Clear(g, sets, addr, 0, 1) && !Holding(g, sets, addr) && !Holding(g, After(g, sets, addr, 0, 1), addr)
  {
    var g := Geometry(0, 0, 0, 1, true, 2);
    var sets := [CacheSet([EMPTY_LINE], Leaf(0))];
    OneLineCache(g, sets);
  }

  lemma OneLineCache(g: Geometry, sets: seq<CacheSet>)
    requires g == Geometry(0, 0, 0, 1, true, 2) && sets == [CacheSet([EMPTY_LINE], Leaf(0))]
    ensures g.Fits() && SetsShape(g, sets)
    ensures Clear(g, sets, 0, 0, 1) && !Holding(g, sets, 0) && !Holding(g, After(g, sets, 0, 0, 1), 0)
  {
    assert Along(g, 0, 1) == 1;
    OneLinePut(g, EMPTY_LINE, 0);
    OneLinePut(g, Line(true, false, true, 0), 1);
    OneLineFields(g, 0);
    OneLineFields(g, 1);
  }

  lemma OneLineFields(g: Geometry, addr: Word)
    requires g.offsetBits == 0 && g.indexBits == 0
    ensures IndexOf(g, addr) == 0 && TagOf(g, addr) == addr
  {
  }

  lemma OneLinePut(g: Geometry, L: Line, addr: Word)
    requires g.offsetBits == 0 && g.indexBits == 0 && g.wayBits == 0
    ensures SetsShape(g, [CacheSet([L], Leaf(0))])
    ensures Put(g, [CacheSet([L], Leaf(0))], addr, 0) == [CacheSet([Line(true, false, true, addr)], Leaf(0))]
  {
    OneLineFields(g, addr);
    hide IndexOf, TagOf;
    assert [L][0 := Line(true, false, true, addr)] == [Line(true, false, true, addr)];
  }
}
