/** The prefetch engine and the demand path share one cache and one backing port.  Everything here
    holds in every state reachable by any interleaving of ready and tick calls, whatever the
    backing level answers. */
module Prefetch {
  import opened Words
  import opened Bits
  import opened PlruTree
  import opened Hierarchy
  import opened WorkingSet
  import opened LineCount

  // ---- Runs of the cache alone ----

  /** A ready call, or a tick in which the backing port, if asked, answered `served`. */
  datatype Op = Ask(addr: Word, isWrite: bool) | Clock(served: bool)

  function Do(g: Geometry, c: CacheState, op: Op): (d: CacheState)
    requires CacheShape(g, c)
    ensures CacheShape(g, d)
  {
    match op
    case Ask(addr, isWrite) => CacheReady(g, c, addr, isWrite)
    case Clock(served) => Advance(g, c, served)
  }

  function Run(g: Geometry, c: CacheState, ops: seq<Op>): (d: CacheState)
    requires CacheShape(g, c)
    ensures CacheShape(g, d)
  {
    if |ops| == 0 then c else Do(g, Run(g, c, ops[..|ops| - 1]), ops[|ops| - 1])
  }

  /** A cache as constructed. */
  predicate Fresh(c: CacheState) {
    c.phase.Idle? && !c.pfActive && c.useful == 0 && c.useless == 0 && Cold(c)
  }

  // ---- Alignment of prefetch targets ----

  predicate Aligned(g: Geometry, addr: Word) { LowBits(addr, g.offsetBits) == 0 }

  lemma {:induction false} LowBitsAdd(x: nat, o: nat, n: nat)
    requires o <= n
    ensures LowBits(x + Pow2(n), o) == LowBits(x, o)
  {
    if o > 0 {
      LowBitsAdd(x / 2, o - 1, n - 1);
      assert (x + Pow2(n)) / 2 == x / 2 + Pow2(n - 1) && (x + Pow2(n)) % 2 == x % 2;
    }
  }

  lemma NextLineAligned(g: Geometry, addr: Word)
    requires g.Fits() && Aligned(g, addr)
    ensures Aligned(g, NextLine(g, addr))
  {
    hide LowBits, Pow2;
    var o := g.offsetBits;
    Pow2Of32();
    LowBitsAdd(addr, o, o);
    var y := addr + Pow2(o);
    Pow2Bound(o);
    if y >= 0x1_0000_0000 {
      assert Unsigned(y) == y - 0x1_0000_0000;
      LowBitsAdd(y - 0x1_0000_0000, o, 32);
    }
  }

  lemma {:induction false} Pow2Bound(o: nat)
    requires o < 32
    ensures Pow2(o) < 0x1_0000_0000
  {
    Pow2Of32();
    Pow2Grows(o, 32);
  }

  lemma {:induction false} Pow2Grows(i: nat, j: nat)
    requires i < j
    ensures Pow2(i) < Pow2(j)
    decreases j
  {
    if i < j - 1 { Pow2Grows(i, j - 1); }
  }

  // ---- Residency ----

  /** No tag in two valid ways of a set. */
  predicate Unique(s: CacheSet) {
    forall v, w | 0 <= v < w < |s.lines| :: s.lines[v].valid && s.lines[w].valid ==> s.lines[v].tag != s.lines[w].tag
  }

  predicate AllUnique(c: CacheState) { forall i | 0 <= i < |c.sets| :: Unique(c.sets[i]) }

  lemma {:induction false} FindInstalled(lines: seq<Line>, way: nat, L: Line, u: nat, from: nat)
    requires from <= |lines| && way < |lines| && L.tag != u && FindWay(lines, u, from) < 0
    ensures FindWay(lines[way := L], u, from) < 0
    decreases |lines| - from
  {
    if from < |lines| { FindInstalled(lines, way, L, u, from + 1); }
  }

  lemma InstallUnique(g: Geometry, s: CacheSet, way: nat, tag: nat, isWrite: bool, fromPrefetch: bool)
    requires SetShape(g, s) && way < g.WayCount() && Unique(s) && FindWay(s.lines, tag, 0) < 0
    ensures Unique(InstallIn(g, s, way, tag, isWrite, fromPrefetch))
  {
    hide Perfect, Ways, Touch;
  }

  lemma HitUnique(g: Geometry, s: CacheSet, way: nat, isWrite: bool)
    requires SetShape(g, s) && way < g.WayCount() && Unique(s)
    ensures Unique(HitIn(g, s, way, isWrite))
  {
    hide Touch, Perfect, Ways;
  }

  /** Installing a line brings in that line and no other. */
  lemma InstallResident(g: Geometry, c: CacheState, a: Word, way: nat, isWrite: bool, fromPrefetch: bool, b: Word)
    requires CacheShape(g, c) && way < g.WayCount()
    requires !Resident(g, c, b) && LineAddrOf(g, a) != LineAddrOf(g, b)
    ensures !Resident(g, Install(g, c, a, way, isWrite, fromPrefetch), b)
  {
    if IndexOf(g, a) == IndexOf(g, b) {
      if TagOf(g, a) == TagOf(g, b) { SameLine(g, a, b); }
      var s := c.sets[IndexOf(g, a)];
      FindInstalled(s.lines, way, Line(true, isWrite, fromPrefetch, TagOf(g, a)), TagOf(g, b), 0);
    }
    hide SetShape, IndexOf, TagOf, LineAddrOf, FindWay, Touch;
  }

  lemma InstallAllUnique(g: Geometry, c: CacheState, a: Word, way: nat, isWrite: bool, fromPrefetch: bool)
    requires CacheShape(g, c) && way < g.WayCount() && AllUnique(c) && !Resident(g, c, a)
    ensures AllUnique(Install(g, c, a, way, isWrite, fromPrefetch))
  {
    InstallUnique(g, c.sets[IndexOf(g, a)], way, TagOf(g, a), isWrite, fromPrefetch);
    hide SetShape, IndexOf, TagOf, FindWay, InstallIn, Unique;
  }

  lemma LineResident(g: Geometry, c: CacheState, a: Word, b: Word)
    requires CacheShape(g, c) && LineAddrOf(g, a) == LineAddrOf(g, b)
    ensures Resident(g, c, a) == Resident(g, c, b)
  {
    LineBase(g, a);
    LineBase(g, b);
    hide SetShape, IndexOf, TagOf, LineAddrOf, FindWay;
  }

  lemma AlignedIsBase(g: Geometry, a: Word)
    requires Aligned(g, a)
    ensures LineAddrOf(g, a) == a
  {
  }

  // ---- Coexistence ----

  predicate TargetOk(g: Geometry, c: CacheState)
    requires CacheShape(g, c)
  {
    c.pfActive ==> Aligned(g, c.pfAddr) && !Resident(g, c, c.pfAddr)
  }

  predicate DemandOk(g: Geometry, c: CacheState)
    requires CacheShape(g, c)
  {
    match c.phase
    case WriteBack | MissFetch =>
      && !Resident(g, c, c.curAddr)
      && (c.pfActive ==> LineAddrOf(g, c.curAddr) != c.pfAddr
                         && !(IndexOf(g, c.pfAddr) == IndexOf(g, c.curAddr) && c.pfWay == c.victimWay))
    case PrefetchWait => c.pfActive && LineAddrOf(g, c.curAddr) == c.pfAddr && c.victimWay == c.pfWay
    case _ => true
  }

  /** No set holds one tag twice; a pending prefetch targets an aligned line that is not resident; a
      demand miss fetches a line that is not resident, into a way no pending prefetch reserves. */
  predicate Coexist(g: Geometry, c: CacheState)
    requires CacheShape(g, c)
  {
    AllUnique(c) && TargetOk(g, c) && DemandOk(g, c)
  }

  lemma SameSets(g: Geometry, c: CacheState, d: CacheState, a: Word)
    requires CacheShape(g, c) && CacheShape(g, d) && c.sets == d.sets
    ensures Resident(g, c, a) == Resident(g, d, a)
  {
  }

  /** Queueing keeps the sets, and queues only what may be queued. */
  lemma QueueOk(g: Geometry, c: CacheState, target: Word, chain: nat)
    requires CacheShape(g, c) && Aligned(g, target) && TargetOk(g, c)
    ensures TargetOk(g, Queue(g, c, target, chain))
    ensures var d := Queue(g, c, target, chain);
      d.sets == c.sets && d.phase == c.phase && d.curAddr == c.curAddr && (c.pfActive ==> d.pfActive)
  {
    SameSets(g, c, Queue(g, c, target, chain), target);
    hide SetShape, LowBits, Resident, ChooseVictim;
  }

  lemma StartOk(g: Geometry, c: CacheState, addr: Word)
    requires CacheShape(g, c) && TargetOk(g, c)
    ensures TargetOk(g, MaybeStartPrefetch(g, c, addr))
    ensures MaybeStartPrefetch(g, c, addr).phase == c.phase && MaybeStartPrefetch(g, c, addr).curAddr == c.curAddr
  {
    LineBase(g, addr);
    NextLineAligned(g, LineAddrOf(g, addr));
    if g.prefetch && !c.pfActive { QueueOk(g, c, NextLine(g, LineAddrOf(g, addr)), 1); }
    hide SetShape, LowBits, Queue, LineAddrOf;
  }

  lemma HitResident(g: Geometry, c: CacheState, i: nat, way: nat, isWrite: bool, d: CacheState, a: Word)
    requires CacheShape(g, c) && i < |c.sets| && way < g.WayCount() && CacheShape(g, d)
    requires d.sets == c.sets[i := HitIn(g, c.sets[i], way, isWrite)]
    ensures Resident(g, d, a) == Resident(g, c, a)
  {
    if i == IndexOf(g, a) {
      HitKeepsLines(c.sets[i].lines, TagOf(g, a), 0, way, d.sets[i].lines[way]);
    }
    hide IndexOf, TagOf, FindWay, Touch;
  }

  lemma HitAllUnique(g: Geometry, c: CacheState, i: nat, way: nat, isWrite: bool, d: CacheState)
    requires CacheShape(g, c) && i < |c.sets| && way < g.WayCount() && AllUnique(c)
    requires d.sets == c.sets[i := HitIn(g, c.sets[i], way, isWrite)]
    ensures AllUnique(d)
  {
    HitUnique(g, c.sets[i], way, isWrite);
    hide Unique, HitIn, SetShape;
  }

  /** Begin, case by case. */
  lemma BeginCases(g: Geometry, c: CacheState, addr: Word, isWrite: bool)
    requires CacheShape(g, c)
    ensures var w := WayOf(g, c, addr); var i := IndexOf(g, addr);
      var c1 := MaybeStartPrefetch(g, c.(curAddr := addr, curIsWrite := isWrite, lastHit := w >= 0), addr);
      var d := Begin(g, c, addr, isWrite);
      && c1.sets == c.sets && IndexOf(g, addr) < |c.sets| && w < g.WayCount()
      && (w >= 0 ==> |c1.sets[i].lines| == g.WayCount() && c1.sets[i].lines[w].valid)
      && if w >= 0 then
        && d.phase.HitWait? && d.sets == c1.sets[i := HitIn(g, c1.sets[i], w, isWrite)]
        && d.pfActive == c1.pfActive && d.pfAddr == c1.pfAddr && d.useless == c1.useless
        && d.useful == c1.useful + (if c1.sets[i].lines[w].prefetched then 1 else 0)
      else if c1.pfActive && LineAddrOf(g, addr) == c1.pfAddr then
        d == c1.(victimWay := c1.pfWay, phase := PrefetchWait)
      else
        && (d.phase.WriteBack? || d.phase.MissFetch?) && d.sets == c1.sets && d.curAddr == c1.curAddr
        && d.pfAddr == c1.pfAddr && d.pfWay == c1.pfWay && d.useful == c1.useful && d.useless == c1.useless
        && d.pfActive == (c1.pfActive && !(IndexOf(g, c1.pfAddr) == i && c1.pfWay == d.victimWay))
  {
    assert SetShape(g, c.sets[IndexOf(g, addr)]);
    hide MaybeStartPrefetch, Perfect, Ways, HitIn, FindWay, ChooseVictim, IndexOf, TagOf, LineAddrOf, AddrOf;
  }

  lemma SameShape(g: Geometry, c: CacheState, d: CacheState)
    requires CacheShape(g, c) && d.sets == c.sets && d.victimWay == c.victimWay && d.pfWay == c.pfWay
    ensures CacheShape(g, d)
  {
    hide SetShape;
  }

  lemma BeginOk(g: Geometry, c: CacheState, addr: Word, isWrite: bool)
    requires CacheShape(g, c) && c.phase.Idle? && Coexist(g, c)
    ensures Coexist(g, Begin(g, c, addr, isWrite))
  {
    var w := WayOf(g, c, addr);
    var c0 := c.(curAddr := addr, curIsWrite := isWrite, lastHit := w >= 0);
    var c1 := MaybeStartPrefetch(g, c0, addr);
    var d := Begin(g, c, addr, isWrite);
    SameShape(g, c, c0);
    SameSets(g, c, c0, c.pfAddr);
    assert TargetOk(g, c0) by { hide CacheShape, Resident, Aligned; }
    StartOk(g, c0, addr);
    SameSets(g, c, c1, addr);
    BeginCases(g, c, addr, isWrite);
    if w >= 0 {
      HitResident(g, c1, IndexOf(g, addr), w, isWrite, d, c1.pfAddr);
      HitAllUnique(g, c1, IndexOf(g, addr), w, isWrite, d);
    } else {
      if d.sets == c1.sets { SameSets(g, c1, d, c1.pfAddr); SameSets(g, c1, d, addr); }
    }
    hide Begin, MaybeStartPrefetch, SetShape, HitIn, FindWay, IndexOf, TagOf, LineAddrOf, Unique, Aligned, CacheShape;
  }

  /** Advance, for the fills of the demand path. */
  lemma FillCases(g: Geometry, c: CacheState)
    requires CacheShape(g, c)
    ensures c.phase.MissFetch? ==> Advance(g, c, true) == Fill(g, c)
    ensures c.phase.PrefetchWait? ==>
              Advance(g, c, true) == Fill(g, c).(useful := Fill(g, c).useful + 1, pfActive := false)
    ensures var d := Fill(g, c); var e := Install(g, c, c.curAddr, c.victimWay, c.curIsWrite, false);
      d.sets == e.sets && d.phase.HitWait? && d.pfActive == c.pfActive && d.pfAddr == c.pfAddr
      && d.useful == c.useful && d.useless == e.useless
  {
    hide SetShape, InstallIn, IndexOf, TagOf;
  }

  lemma FillOk(g: Geometry, c: CacheState)
    requires CacheShape(g, c) && Coexist(g, c) && (c.phase.MissFetch? || c.phase.PrefetchWait?)
    ensures Coexist(g, Advance(g, c, true))
  {
    var e := Install(g, c, c.curAddr, c.victimWay, c.curIsWrite, false);
    FillCases(g, c);
    if c.phase.PrefetchWait? {
      AlignedIsBase(g, c.pfAddr);
      LineResident(g, c, c.curAddr, c.pfAddr);
    } else if c.pfActive {
      AlignedIsBase(g, c.pfAddr);
      InstallResident(g, c, c.curAddr, c.victimWay, c.curIsWrite, false, c.pfAddr);
      SameSets(g, e, Advance(g, c, true), c.pfAddr);
    }
    InstallAllUnique(g, c, c.curAddr, c.victimWay, c.curIsWrite, false);
    hide Install, Fill, Advance, SetShape, Unique, IndexOf, LineAddrOf, Resident, Aligned, CacheShape;
  }

  lemma ServiceOk(g: Geometry, c: CacheState, served: bool)
    requires CacheShape(g, c) && Coexist(g, c) && (c.phase.Idle? || c.phase.HitWait?)
    ensures Coexist(g, ServicePrefetch(g, c, served))
  {
    if c.pfActive && served {
      var c1 := Install(g, c, c.pfAddr, c.pfWay, false, true).(pfActive := false);
      InstallAllUnique(g, c, c.pfAddr, c.pfWay, false, true);
      NextLineAligned(g, c.pfAddr);
      InstallFrame(g, c, c.pfAddr, c.pfWay, false, true);
      SameShape(g, Install(g, c, c.pfAddr, c.pfWay, false, true), c1);
      QueueOk(g, c1, NextLine(g, c.pfAddr), c.pfChain + 1);
    }
    hide Install, Queue, SetShape, Unique, IndexOf, LineAddrOf, Resident, Aligned, NextLine, CacheShape;
  }

  lemma InstallFrame(g: Geometry, c: CacheState, addr: Word, way: nat, isWrite: bool, fromPrefetch: bool)
    requires CacheShape(g, c) && way < g.WayCount()
    ensures var d := Install(g, c, addr, way, isWrite, fromPrefetch);
      d.phase == c.phase && d.pfActive == c.pfActive && d.curAddr == c.curAddr && d.useful == c.useful
  {
    hide SetShape, InstallIn;
  }

  lemma AdvanceOk(g: Geometry, c: CacheState, served: bool)
    requires CacheShape(g, c) && Coexist(g, c)
    ensures Coexist(g, Advance(g, c, served))
  {
    match c.phase
    case Idle => ServiceOk(g, c, served);
    case HitWait =>
      var d := if c.hitRemaining > 0 then c.(hitRemaining := c.hitRemaining - 1) else c.(phase := Idle);
      SameShape(g, c, d);
      SameSets(g, c, d, c.pfAddr);
      assert Coexist(g, d) by { hide Unique, Resident, Aligned, CacheShape; }
      ServiceOk(g, d, served);
      hide Coexist, ServicePrefetch, CacheShape;
    case WriteBack =>
      var d := c.(phase := MissFetch);
      SameShape(g, c, d);
      SameSets(g, c, d, c.pfAddr);
      SameSets(g, c, d, c.curAddr);
      hide Unique, Resident, Aligned, CacheShape, LineAddrOf, IndexOf;
    case _ => if served { FillOk(g, c); } hide Fill, Coexist, CacheShape;
  }

  lemma FreshOk(g: Geometry, c: CacheState)
    requires CacheShape(g, c) && Fresh(c)
    ensures Coexist(g, c)
  {
    hide SetShape, Resident, Aligned;
  }

  /** Prefetch/demand coexistence in every reachable state. */
  lemma {:induction false} CoexistAlways(g: Geometry, c: CacheState, ops: seq<Op>)
    requires CacheShape(g, c) && Fresh(c)
    ensures Coexist(g, Run(g, c, ops))
  {
    hide Coexist, CacheShape, Fresh, CacheReady, Advance;
    if |ops| == 0 {
      FreshOk(g, c);
    } else {
      var d := Run(g, c, ops[..|ops| - 1]);
      CoexistAlways(g, c, ops[..|ops| - 1]);
      match ops[|ops| - 1]
      case Ask(addr, isWrite) => ReadyOk(g, d, addr, isWrite);
      case Clock(served) => AdvanceOk(g, d, served);
    }
  }

  lemma ReadyOk(g: Geometry, c: CacheState, addr: Word, isWrite: bool)
    requires CacheShape(g, c) && Coexist(g, c)
    ensures Coexist(g, CacheReady(g, c, addr, isWrite))
  {
    hide Coexist, CacheShape, Begin;
    if c.phase.Idle? { BeginOk(g, c, addr, isWrite); }
  }

  // ---- Accounting ----

  /** A prefetched line no demand has used yet. */
  predicate Unused(L: Line) { L.valid && L.prefetched }

  function Score(c: CacheState): nat { c.useful + c.useless + CountSets(Unused, c.sets) }

  /** Whether the call completes a prefetch install, or a merge of a demand with a prefetch. */
  predicate Installs(c: CacheState, op: Op) {
    op.Clock? && op.served && c.pfActive && (c.phase.Idle? || c.phase.HitWait?)
  }

  predicate Merges(c: CacheState, op: Op) { op.Clock? && op.served && c.phase.PrefetchWait? }

  lemma InstallScore(g: Geometry, c: CacheState, addr: Word, way: nat, isWrite: bool, fromPrefetch: bool)
    requires CacheShape(g, c) && way < g.WayCount()
    ensures Score(Install(g, c, addr, way, isWrite, fromPrefetch)) == Score(c) + (if fromPrefetch then 1 else 0)
  {
    var i := IndexOf(g, addr);
    var s := c.sets[i];
    var t := InstallIn(g, s, way, TagOf(g, addr), isWrite, fromPrefetch);
    CountLinesUpdate(Unused, s.lines, way, t.lines[way]);
    CountSetsUpdate(Unused, c.sets, i, t);
    assert t.lines == s.lines[way := t.lines[way]];
    hide CountLines, CountSets, IndexOf, TagOf, Touch, Perfect, Ways;
  }

  lemma HitScore(g: Geometry, c: CacheState, i: nat, way: nat, isWrite: bool)
    requires CacheShape(g, c) && i < |c.sets| && way < g.WayCount() && c.sets[i].lines[way].valid
    ensures CountSets(Unused, c.sets[i := HitIn(g, c.sets[i], way, isWrite)])
            + (if c.sets[i].lines[way].prefetched then 1 else 0) == CountSets(Unused, c.sets)
  {
    var s := c.sets[i];
    var t := HitIn(g, s, way, isWrite);
    CountLinesUpdate(Unused, s.lines, way, t.lines[way]);
    CountSetsUpdate(Unused, c.sets, i, t);
    assert t.lines == s.lines[way := t.lines[way]];
    hide CountLines, CountSets, Touch, Perfect, Ways;
  }

  lemma QueueScore(g: Geometry, c: CacheState, target: Word, chain: nat, addr: Word)
    requires CacheShape(g, c)
    ensures Score(Queue(g, c, target, chain)) == Score(c)
    ensures Score(MaybeStartPrefetch(g, c, addr)) == Score(c) && MaybeStartPrefetch(g, c, addr).useful == c.useful
  {
    hide CacheShape, CountSets, Resident, ChooseVictim, NextLine, LineAddrOf;
  }

  lemma BeginScore(g: Geometry, c: CacheState, addr: Word, isWrite: bool)
    requires CacheShape(g, c)
    ensures Score(Begin(g, c, addr, isWrite)) == Score(c)
  {
    hide Begin, MaybeStartPrefetch, CountSets, CacheShape, HitIn, FindWay, ChooseVictim, IndexOf, TagOf, LineAddrOf,
         AddrOf;
    var w := WayOf(g, c, addr);
    var c0 := c.(curAddr := addr, curIsWrite := isWrite, lastHit := w >= 0);
    SameShape(g, c, c0);
    QueueScore(g, c0, 0, 0, addr);
    BeginCases(g, c, addr, isWrite);
    if w >= 0 { HitScore(g, MaybeStartPrefetch(g, c0, addr), IndexOf(g, addr), w, isWrite); }
  }

  lemma AdvanceScore(g: Geometry, c: CacheState, served: bool)
    requires CacheShape(g, c)
    ensures Score(Advance(g, c, served))
            == Score(c) + (if Installs(c, Clock(served)) then 1 else 0) + (if Merges(c, Clock(served)) then 1 else 0)
  {
    hide Fill, CountSets, ServicePrefetch;
    if c.phase.MissFetch? || c.phase.PrefetchWait? {
      FillCases(g, c);
      InstallScore(g, c, c.curAddr, c.victimWay, c.curIsWrite, false);
      hide CacheShape;
    } else {
      var d := if !c.phase.HitWait? then c
               else if c.hitRemaining > 0 then c.(hitRemaining := c.hitRemaining - 1)
               else c.(phase := Idle);
      SameShape(g, c, d);
      ServiceScore(g, d, served);
      hide CacheShape;
    }
  }

  lemma ServiceScore(g: Geometry, c: CacheState, served: bool)
    requires CacheShape(g, c)
    ensures Score(ServicePrefetch(g, c, served)) == Score(c) + (if c.pfActive && served then 1 else 0)
  {
    if c.pfActive && served {
      InstallScore(g, c, c.pfAddr, c.pfWay, false, true);
      var e := Install(g, c, c.pfAddr, c.pfWay, false, true);
      SameShape(g, e, e.(pfActive := false));
      QueueScore(g, e.(pfActive := false), NextLine(g, c.pfAddr), c.pfChain + 1, 0);
    }
    hide Install, Queue, CountSets, CacheShape, NextLine;
  }

  function InstallsIn(g: Geometry, c: CacheState, ops: seq<Op>): nat
    requires CacheShape(g, c)
  {
    if |ops| == 0 then 0
    else InstallsIn(g, c, ops[..|ops| - 1]) + (if Installs(Run(g, c, ops[..|ops| - 1]), ops[|ops| - 1]) then 1 else 0)
  }

  function MergesIn(g: Geometry, c: CacheState, ops: seq<Op>): nat
    requires CacheShape(g, c)
  {
    if |ops| == 0 then 0
    else MergesIn(g, c, ops[..|ops| - 1]) + (if Merges(Run(g, c, ops[..|ops| - 1]), ops[|ops| - 1]) then 1 else 0)
  }

  /** Whether the call is the first use of a prefetched line by a demand hit. */
  predicate Uses(g: Geometry, c: CacheState, op: Op)
    requires CacheShape(g, c)
  {
    op.Ask? && c.phase.Idle? && Resident(g, c, op.addr)
    && var i, w := IndexOf(g, op.addr), WayOf(g, c, op.addr);
       w < |c.sets[i].lines| && c.sets[i].lines[w].prefetched
  }

  function UsesIn(g: Geometry, c: CacheState, ops: seq<Op>): nat
    requires CacheShape(g, c)
  {
    if |ops| == 0 then 0
    else UsesIn(g, c, ops[..|ops| - 1]) + (if Uses(g, Run(g, c, ops[..|ops| - 1]), ops[|ops| - 1]) then 1 else 0)
  }

  /** Prefetch accounting, over every run: the useful counter is the first uses of prefetched lines plus the
      merges, and useful + useless + resident unused == installs + merges. */
  lemma {:induction false} Accounting(g: Geometry, c: CacheState, ops: seq<Op>)
    requires CacheShape(g, c) && Fresh(c)
    ensures var d := Run(g, c, ops);
      && d.useful == UsesIn(g, c, ops) + MergesIn(g, c, ops)
      && d.useful + d.useless + CountSets(Unused, d.sets) == InstallsIn(g, c, ops) + MergesIn(g, c, ops)
  {
    hide CacheShape, CacheReady, Advance, CountSets, Fresh, Uses, Installs, Merges, Do;
    if |ops| == 0 {
      FreshScore(g, c);
    } else {
      var front, op := ops[..|ops| - 1], ops[|ops| - 1];
      Accounting(g, c, front);
      DoScore(g, Run(g, c, front), op);
      DoUseful(g, Run(g, c, front), op);
    }
  }

  lemma DoUseful(g: Geometry, c: CacheState, op: Op)
    requires CacheShape(g, c)
    ensures Do(g, c, op).useful
            == c.useful + (if Uses(g, c, op) then 1 else 0) + (if Merges(c, op) then 1 else 0)
  {
    hide Begin, Advance, CacheShape, Resident, WayOf, IndexOf;
    match op
    case Ask(addr, isWrite) => if c.phase.Idle? { BeginUseful(g, c, addr, isWrite); }
    case Clock(served) => AdvanceUseful(g, c, served);
  }

  lemma BeginUseful(g: Geometry, c: CacheState, addr: Word, isWrite: bool)
    requires CacheShape(g, c) && c.phase.Idle?
    ensures Begin(g, c, addr, isWrite).useful == c.useful + (if Uses(g, c, Ask(addr, isWrite)) then 1 else 0)
  {
    hide Begin, MaybeStartPrefetch, CountSets, CacheShape, HitIn, FindWay, ChooseVictim, IndexOf, TagOf, LineAddrOf,
         AddrOf;
    var w := WayOf(g, c, addr);
    var c0 := c.(curAddr := addr, curIsWrite := isWrite, lastHit := w >= 0);
    SameShape(g, c, c0);
    QueueScore(g, c0, 0, 0, addr);
    BeginCases(g, c, addr, isWrite);
  }

  lemma AdvanceUseful(g: Geometry, c: CacheState, served: bool)
    requires CacheShape(g, c)
    ensures Advance(g, c, served).useful == c.useful + (if Merges(c, Clock(served)) then 1 else 0)
  {
    hide Fill, ServicePrefetch, CacheShape, Install;
    if c.phase.MissFetch? || c.phase.PrefetchWait? {
      FillCases(g, c);
    } else {
      var d := if !c.phase.HitWait? then c
               else if c.hitRemaining > 0 then c.(hitRemaining := c.hitRemaining - 1)
               else c.(phase := Idle);
      SameShape(g, c, d);
      ServiceUseful(g, d, served);
    }
  }

  lemma ServiceUseful(g: Geometry, c: CacheState, served: bool)
    requires CacheShape(g, c)
    ensures ServicePrefetch(g, c, served).useful == c.useful
  {
    hide SetShape, InstallIn, ChooseVictim, Resident, IndexOf, NextLine, TagOf;
  }

  lemma DoScore(g: Geometry, c: CacheState, op: Op)
    requires CacheShape(g, c)
    ensures Score(Do(g, c, op)) == Score(c) + (if Installs(c, op) then 1 else 0) + (if Merges(c, op) then 1 else 0)
  {
    hide Begin, Advance, Score, CacheShape;
    match op
    case Ask(addr, isWrite) => if c.phase.Idle? { BeginScore(g, c, addr, isWrite); }
    case Clock(served) => AdvanceScore(g, c, served);
  }

  lemma {:induction false} NoneUnused(sets: seq<CacheSet>)
    requires forall i, w | 0 <= i < |sets| && 0 <= w < |sets[i].lines| :: sets[i].lines[w] == EMPTY_LINE
    ensures CountSets(Unused, sets) == 0
  {
    if |sets| > 0 {
      NoneUnused(sets[..|sets| - 1]);
      NoLineUnused(sets[|sets| - 1].lines);
    }
  }

  lemma {:induction false} NoLineUnused(lines: seq<Line>)
    requires forall w | 0 <= w < |lines| :: lines[w] == EMPTY_LINE
    ensures CountLines(Unused, lines) == 0
  {
    if |lines| > 0 { NoLineUnused(lines[..|lines| - 1]); }
  }

  lemma FreshScore(g: Geometry, c: CacheState)
    requires Fresh(c)
    ensures Score(c) == 0
  {
    NoneUnused(c.sets);
  }
}
