/** The memory hierarchy's timing state (src/memory/flat_mem.cpp:53-69, src/memory/cache.cpp): a flat
    memory, or a cache over another level.  Shifts and masks of addresses by powers of two are
    written as division and remainder. */
module Hierarchy {
  import opened Words
  import opened Bits
  import opened Numbers
  import opened PlruTree

  type Pos = n: nat | n > 0 witness 1

  datatype Line = Line(valid: bool, dirty: bool, prefetched: bool, tag: nat)

  predicate Dirty(L: Line) { L.valid && L.dirty }

  const EMPTY_LINE := Line(false, false, false, 0)

  datatype CacheSet = CacheSet(lines: seq<Line>, plru: PTree)

  /** line_bytes, sets and ways are 2^offsetBits, 2^indexBits and 2^wayBits. */
  datatype Geometry = Geometry(offsetBits: nat, indexBits: nat, wayBits: nat, hitLatency: Pos,
                               prefetch: bool, degree: Pos)
  {
    predicate Fits() { offsetBits + indexBits < 32 }
    function LineBytes(): Pos { Pow2(offsetBits) }
    function Sets(): Pos { Pow2(indexBits) }
    function WayCount(): Pos { Pow2(wayBits) }
  }

  datatype Phase = Idle | HitWait | WriteBack | MissFetch | PrefetchWait

  datatype CacheState = CacheState(sets: seq<CacheSet>, phase: Phase, curAddr: Word, curIsWrite: bool,
                                   victimWay: nat, wbAddr: Word, hitRemaining: nat, lastHit: bool,
                                   pfActive: bool, pfAddr: Word, pfWay: nat, pfChain: nat,
                                   useful: nat, useless: nat)

  datatype Mem =
    | Flat(latency: Pos, serving: bool, remaining: nat)
    | Cached(g: Geometry, c: CacheState, backing: Mem)

  /** Every line is as constructed. */
  predicate Cold(c: CacheState) {
    forall i, w | 0 <= i < |c.sets| && 0 <= w < |c.sets[i].lines| :: c.sets[i].lines[w] == EMPTY_LINE
  }

  // ---- Address arithmetic (src/memory/cache.cpp:33-48) ----

  function IndexOf(g: Geometry, addr: Word): (i: nat)
    ensures i < g.Sets()
  {
    LowBits(Shr(addr, g.offsetBits), g.indexBits)
  }

  function TagOf(g: Geometry, addr: Word): nat { Shr(addr, g.offsetBits + g.indexBits) }

  function LineAddrOf(g: Geometry, addr: Word): Word { addr - LowBits(addr, g.offsetBits) }

  /** The bits of tag and set do not overlap, so the source's | is a sum. */
  function AddrOf(g: Geometry, set_: nat, tag: nat): Word {
    Unsigned(Shl(tag, g.offsetBits + g.indexBits) + Shl(set_, g.offsetBits))
  }

  // ---- Laws of the address arithmetic ----

  /** The write-back address of a line is the base address of the line. */
  lemma AddrOfLine(g: Geometry, addr: Word)
    ensures AddrOf(g, IndexOf(g, addr), TagOf(g, addr)) == LineAddrOf(g, addr)
  {
    var o, i := g.offsetBits, g.indexBits;
    var q := Shr(addr, o);
    ShrShr(addr, o, i);
    ShlShl(Shr(q, i), o, i);
    ShlAdd(Shl(Shr(q, i), i), LowBits(q, i), o);
    SplitBits(q, i);
    SplitBits(addr, o);
  }

  /** Two addresses with the same set and tag are in the same line. */
  lemma SameLine(g: Geometry, a: Word, b: Word)
    requires IndexOf(g, a) == IndexOf(g, b) && TagOf(g, a) == TagOf(g, b)
    ensures LineAddrOf(g, a) == LineAddrOf(g, b)
  {
    AddrOfLine(g, a);
    AddrOfLine(g, b);
  }

  /** A line's base address is in the line, and aligned. */
  lemma LineBase(g: Geometry, addr: Word)
    ensures IndexOf(g, LineAddrOf(g, addr)) == IndexOf(g, addr) && TagOf(g, LineAddrOf(g, addr)) == TagOf(g, addr)
    ensures LowBits(LineAddrOf(g, addr), g.offsetBits) == 0
  {
    ShrZeroLow(addr, g.offsetBits);
    ShrShr(addr, g.offsetBits, g.indexBits);
    ShrShr(LineAddrOf(g, addr), g.offsetBits, g.indexBits);
  }

  /** The three parts of an address, as numbers: line size and number of sets are powers of two. */
  lemma AddressFields(g: Geometry, addr: Word)
    ensures IndexOf(g, addr) == addr / g.LineBytes() % g.Sets()
    ensures TagOf(g, addr) == addr / g.LineBytes() / g.Sets()
    ensures LineAddrOf(g, addr) == addr - addr % g.LineBytes()
  {
    hide Shr, LowBits, Pow2;
    ShrIs(addr, g.offsetBits);
    LowBitsIs(Shr(addr, g.offsetBits), g.indexBits);
    ShrShr(addr, g.offsetBits, g.indexBits);
    ShrIs(Shr(addr, g.offsetBits), g.indexBits);
    LowBitsIs(addr, g.offsetBits);
  }

  /** SequentialPrefetch::next. */
  function NextLine(g: Geometry, addr: Word): Word { Unsigned(addr + g.LineBytes()) }

  // ---- One set ----

  predicate SetShape(g: Geometry, s: CacheSet) {
    && |s.lines| == g.WayCount() && Perfect(s.plru, g.wayBits)
    && (forall w | w in Ways(s.plru) :: w < g.WayCount())
    && (forall w | 0 <= w < g.WayCount() :: w in Ways(s.plru))
  }

  /** Cache::find_way: the first way from `from` on that holds the tag, or -1. */
  function FindWay(lines: seq<Line>, tag: nat, from: nat): (w: int)
    requires from <= |lines|
    ensures w == -1 || from <= w < |lines|
    ensures w >= 0 ==> lines[w].valid && lines[w].tag == tag
    ensures forall v | from <= v < (if w < 0 then |lines| else w) :: !(lines[v].valid && lines[v].tag == tag)
    decreases |lines| - from
  {
    if from == |lines| then -1
    else if lines[from].valid && lines[from].tag == tag then from
    else FindWay(lines, tag, from + 1)
  }

  /** The first invalid way from `from` on, or -1. */
  function FirstInvalid(lines: seq<Line>, from: nat): (w: int)
    requires from <= |lines|
    ensures w == -1 || from <= w < |lines|
    ensures w >= 0 ==> !lines[w].valid
    ensures forall v | from <= v < (if w < 0 then |lines| else w) :: lines[v].valid
    decreases |lines| - from
  {
    if from == |lines| then -1 else if !lines[from].valid then from else FirstInvalid(lines, from + 1)
  }

  /** Cache::choose_victim. */
  function ChooseVictim(g: Geometry, s: CacheSet): (w: nat)
    requires SetShape(g, s)
    ensures w < g.WayCount()
  {
    VictimIsAWay(s.plru);
    if FirstInvalid(s.lines, 0) >= 0 then FirstInvalid(s.lines, 0) else Victim(s.plru)
  }

  /** Cache::install_line on its set. */
  function InstallIn(g: Geometry, s: CacheSet, way: nat, tag: nat, isWrite: bool, fromPrefetch: bool): (t: CacheSet)
    requires SetShape(g, s) && way < g.WayCount()
    ensures SetShape(g, t)
  {
    TouchKeeps(s.plru, way, g.wayBits);
    CacheSet(s.lines[way := Line(true, isWrite, fromPrefetch, tag)], Touch(s.plru, way))
  }

  /** A hit: a store dirties the line, any use clears its prefetched mark. */
  function HitIn(g: Geometry, s: CacheSet, way: nat, isWrite: bool): (t: CacheSet)
    requires SetShape(g, s) && way < g.WayCount()
    ensures SetShape(g, t)
  {
    TouchKeeps(s.plru, way, g.wayBits);
    var L := s.lines[way];
    CacheSet(s.lines[way := L.(dirty := L.dirty || isWrite, prefetched := false)], Touch(s.plru, way))
  }

  // ---- The cache without its backing port ----

  predicate CacheShape(g: Geometry, c: CacheState) {
    && g.Fits() && |c.sets| == g.Sets()
    && (forall i | 0 <= i < |c.sets| :: SetShape(g, c.sets[i]))
    && c.victimWay < g.WayCount() && c.pfWay < g.WayCount()
  }

  function SetAt(g: Geometry, c: CacheState, addr: Word): CacheSet
    requires CacheShape(g, c)
  {
    c.sets[IndexOf(g, addr)]
  }

  function WayOf(g: Geometry, c: CacheState, addr: Word): int
    requires CacheShape(g, c)
  {
    FindWay(SetAt(g, c, addr).lines, TagOf(g, addr), 0)
  }

  predicate Resident(g: Geometry, c: CacheState, addr: Word)
    requires CacheShape(g, c)
  {
    WayOf(g, c, addr) >= 0
  }

  function Install(g: Geometry, c: CacheState, addr: Word, way: nat, isWrite: bool, fromPrefetch: bool): (d: CacheState)
    requires CacheShape(g, c) && way < g.WayCount()
    ensures CacheShape(g, d)
  {
    var i := IndexOf(g, addr);
    var L := c.sets[i].lines[way];
    c.(sets := c.sets[i := InstallIn(g, c.sets[i], way, TagOf(g, addr), isWrite, fromPrefetch)],
       useless := c.useless + (if L.valid && L.prefetched then 1 else 0))
  }

  /** Queue a prefetch of target unless it is resident or its victim is dirty
      (src/memory/cache.cpp:85-99 and 108-122). */
  function Queue(g: Geometry, c: CacheState, target: Word, chain: nat): (d: CacheState)
    requires CacheShape(g, c)
    ensures CacheShape(g, d) && d.sets == c.sets
  {
    var s := SetAt(g, c, target);
    var way := ChooseVictim(g, s);
    if Resident(g, c, target) || (s.lines[way].valid && s.lines[way].dirty) then c
    else c.(pfAddr := target, pfWay := way, pfActive := true, pfChain := chain)
  }

  function MaybeStartPrefetch(g: Geometry, c: CacheState, addr: Word): (d: CacheState)
    requires CacheShape(g, c)
    ensures CacheShape(g, d) && d.sets == c.sets
  {
    if !g.prefetch || c.pfActive then c else Queue(g, c, NextLine(g, LineAddrOf(g, addr)), 1)
  }

  /** What Cache::ready does in phase Idle. */
  function Begin(g: Geometry, c: CacheState, addr: Word, isWrite: bool): (d: CacheState)
    requires CacheShape(g, c)
    ensures CacheShape(g, d)
  {
    var w := WayOf(g, c, addr);
    var i := IndexOf(g, addr);
    var c1 := MaybeStartPrefetch(g, c.(curAddr := addr, curIsWrite := isWrite, lastHit := w >= 0), addr);
    if w >= 0 then
      c1.(sets := c1.sets[i := HitIn(g, c1.sets[i], w, isWrite)],
          useful := c1.useful + (if c1.sets[i].lines[w].prefetched then 1 else 0),
          phase := HitWait, hitRemaining := g.hitLatency - 1)
    else if c1.pfActive && LineAddrOf(g, addr) == c1.pfAddr then
      c1.(victimWay := c1.pfWay, phase := PrefetchWait)
    else
      var way := ChooseVictim(g, c1.sets[i]);
      var c2 := c1.(victimWay := way,
                    pfActive := c1.pfActive && !(IndexOf(g, c1.pfAddr) == i && c1.pfWay == way));
      var v := c1.sets[i].lines[way];
      if v.valid && v.dirty then c2.(wbAddr := AddrOf(g, i, v.tag), phase := WriteBack)
      else c2.(phase := MissFetch)
  }

  function CacheReady(g: Geometry, c: CacheState, addr: Word, isWrite: bool): (d: CacheState)
    requires CacheShape(g, c)
    ensures CacheShape(g, d)
  {
    if c.phase.Idle? then Begin(g, c, addr, isWrite) else c
  }

  predicate Served(c: CacheState) { c.phase.HitWait? && c.hitRemaining == 0 }

  /** The request a tick makes of the backing port, if any. */
  function Request(c: CacheState): Option<(Word, bool)> {
    match c.phase
    case WriteBack => Some((c.wbAddr, true))
    case MissFetch => Some((c.curAddr, false))
    case PrefetchWait => Some((c.curAddr, false))
    case _ => if c.pfActive then Some((c.pfAddr, false)) else None
  }

  /** Cache::service_prefetch, given what the backing port answered. */
  function ServicePrefetch(g: Geometry, c: CacheState, served: bool): (d: CacheState)
    requires CacheShape(g, c)
    ensures CacheShape(g, d)
  {
    if !c.pfActive || !served then c
    else
      var c1 := Install(g, c, c.pfAddr, c.pfWay, false, true).(pfActive := false);
      if c.pfChain < g.degree then Queue(g, c1, NextLine(g, c.pfAddr), c.pfChain + 1) else c1
  }

  /** The demand fill: install the line and wait out the hit latency. */
  function Fill(g: Geometry, c: CacheState): (d: CacheState)
    requires CacheShape(g, c)
    ensures CacheShape(g, d)
  {
    Install(g, c, c.curAddr, c.victimWay, c.curIsWrite, false).(phase := HitWait, hitRemaining := g.hitLatency - 1)
  }

  /** Cache::tick, given what the backing port answered. */
  function Advance(g: Geometry, c: CacheState, served: bool): (d: CacheState)
    requires CacheShape(g, c)
    ensures CacheShape(g, d)
  {
    match c.phase
    case Idle => ServicePrefetch(g, c, served)
    case HitWait =>
      ServicePrefetch(g,
          if c.hitRemaining > 0 then c.(hitRemaining := c.hitRemaining - 1) else c.(phase := Idle), served)
    case WriteBack => if served then c.(phase := MissFetch) else c
    case MissFetch => if served then Fill(g, c) else c
    case PrefetchWait => if served then Fill(g, c).(useful := Fill(g, c).useful + 1, pfActive := false) else c
  }

  // ---- IMemory::ready and IMemory::tick at any level ----

  predicate Shape(m: Mem) {
    match m
    case Flat(l, serving, r) => r < l
    case Cached(g, c, b) => CacheShape(g, c) && c.hitRemaining < g.hitLatency && Shape(b)
  }

  /** The number of caches above the flat memory. */
  function Height(m: Mem): nat { if m.Flat? then 0 else 1 + Height(m.backing) }

  function Ready(m: Mem, addr: Word, isWrite: bool): (r: Mem)
    requires Shape(m)
    ensures Shape(r) && Height(r) == Height(m)
  {
    match m
    case Flat(l, serving, rem) => if serving then m else Flat(l, true, l - 1)
    case Cached(g, c, b) =>
      BeginKeepsTimer(g, c, addr, isWrite);
      Cached(g, CacheReady(g, c, addr, isWrite), b)
  }

  /** The answer of the ready call that led to m. */
  predicate IsServed(m: Mem) {
    match m
    case Flat(_, serving, rem) => serving && rem == 0
    case Cached(_, c, _) => Served(c)
  }

  lemma BeginKeepsTimer(g: Geometry, c: CacheState, addr: Word, isWrite: bool)
    requires CacheShape(g, c)
    ensures CacheReady(g, c, addr, isWrite).hitRemaining < g.hitLatency
            || CacheReady(g, c, addr, isWrite).hitRemaining == c.hitRemaining
  {
  }

  lemma AdvanceKeepsTimer(g: Geometry, c: CacheState, served: bool)
    requires CacheShape(g, c) && c.hitRemaining < g.hitLatency
    ensures Advance(g, c, served).hitRemaining < g.hitLatency
  {
  }

  function Tick(m: Mem): (r: Mem)
    requires Shape(m)
    ensures Shape(r) && Height(r) == Height(m)
    decreases Height(m)
  {
    match m
    case Flat(l, serving, rem) =>
      if !serving then m else if rem > 0 then Flat(l, true, rem - 1) else Flat(l, false, rem)
    case Cached(g, c, b) =>
      AdvanceKeepsTimer(g, c, true);
      AdvanceKeepsTimer(g, c, false);
      match Request(c)
      case None => Cached(g, Advance(g, c, false), b)
      case Some((addr, isWrite)) =>
        var b1 := Ready(b, addr, isWrite);
        Cached(g, Advance(g, c, IsServed(b1)), Tick(b1))
  }

  // ---- Tick, phase by phase ----

  predicate Shapes(g: Geometry, c: CacheState, b: Mem) { CacheShape(g, c) && c.hitRemaining < g.hitLatency && Shape(b) }

  lemma TickServes(g: Geometry, c: CacheState, b: Mem)
    requires Shapes(g, c, b) && (c.phase.Idle? || c.phase.HitWait?)
    ensures var c1 := if c.phase.Idle? then c else if c.hitRemaining > 0 then c.(hitRemaining := c.hitRemaining - 1)
      else c.(phase := Idle);
      CacheShape(g, c1) && Tick(Cached(g, c, b))
        == if c.pfActive
           then Cached(g, ServicePrefetch(g, c1, IsServed(Ready(b, c.pfAddr, false))), Tick(Ready(b, c.pfAddr, false)))
           else Cached(g, c1, b)
  {
    hide SetShape, Ready, Install, Queue, IsServed;
  }

  lemma TickDemands(g: Geometry, c: CacheState, b: Mem)
    requires Shapes(g, c, b)
    ensures c.phase.WriteBack? ==> var b1 := Ready(b, c.wbAddr, true);
      Tick(Cached(g, c, b)) == Cached(g, if IsServed(b1) then c.(phase := MissFetch) else c, Tick(b1))
    ensures c.phase.MissFetch? ==> var b1 := Ready(b, c.curAddr, false);
      Tick(Cached(g, c, b)) == Cached(g, if IsServed(b1) then Fill(g, c) else c, Tick(b1))
    ensures c.phase.PrefetchWait? ==> var b1 := Ready(b, c.curAddr, false); var f := Fill(g, c);
      Tick(Cached(g, c, b))
          == Cached(g, if IsServed(b1) then f.(useful := f.useful + 1, pfActive := false) else c, Tick(b1))
  {
    hide CacheShape, Ready, IsServed, Fill;
  }
}
