/** The configuration of a core and its parts: memories, latches, stages, and how they are wired
    (include/cpusim/sim/sim_config.h and the constructor in src/sim/core.cpp). */
module CoreParts {
  import opened Words
  import opened Pipeline
  import H = Hierarchy
  import CacheCost
  import Prefetch
  import Waiting
  import opened Predictor
  import opened MemoryObjects
  import opened StageObjects

  // ---- Configuration ----

  datatype CacheConfig = CacheConfig(lineBytes: nat, sets: nat, hitLatency: nat, ways: nat)
  {
    /** What the constructors assert: powers of two, within 32 address bits. */
    ghost predicate Ok() {
      && (exists k: nat :: IsPow2(ways, k))
      && exists o: nat, i: nat :: IsPow2(lineBytes, o) && IsPow2(sets, i) && o + i < 32
    }
  }

  datatype PredictorConfig = PredictorConfig(bhtEntries: nat, btbEntries: nat)
  {
    ghost predicate Ok() { (exists k: nat :: IsPow2(bhtEntries, k)) && (exists k: nat :: IsPow2(btbEntries, k)) }
  }

  /** Latencies and the like: 0 counts as 1. */
  function AtLeastOne(n: nat): H.Pos { if n == 0 then 1 else n }

  /** The longest a request can take behind a port so configured. */
  function LongestWait(latency: nat, cache: Option<CacheConfig>): nat {
    if cache.None? then AtLeastOne(latency) else 2 * AtLeastOne(latency) + AtLeastOne(cache.value.hitLatency)
  }

  /** An absent cache or predictor is one that is not enabled; only the instruction cache may prefetch. */
  datatype SimConfig = SimConfig(ramBase: Word, imemLatency: nat, icache: Option<CacheConfig>,
                                 icachePrefetch: bool, icachePrefetchDegree: nat,
                                 dmemLatency: nat, dcache: Option<CacheConfig>, bpred: Option<PredictorConfig>)
  {
    ghost predicate Ok() {
      && (icache.Some? ==> icache.value.Ok()) && (dcache.Some? ==> dcache.value.Ok())
      && (bpred.Some? ==> bpred.value.Ok())
    }

    predicate SingleCycleFetch() { icache.None? && imemLatency <= 1 }

    /** What the configuration builds: both memories, and the predictor if there is one. */
    predicate Built(iport: H.Mem, dport: H.Mem, bp: Option<Tables>) {
      && PortAs(iport, imemLatency, icache, icachePrefetch, icachePrefetchDegree)
      && PortAs(dport, dmemLatency, dcache, false, 1)
      && bp.Some? == bpred.Some? && (bp.Some? ==> TablesAs(bp.value, bpred.value))
    }

    /** The most cycles between two retirements. */
    function Gap(): nat { 3 + LongestWait(dmemLatency, dcache) + LongestWait(imemLatency, icache) }
  }

  // ---- What is configured, on values ----

  /** A cache of the configured shape over `backing`, with nothing in it. */
  predicate CacheAs(m: H.Mem, cfg: CacheConfig, prefetch: bool, degree: nat, backing: H.Mem) {
    && m.Cached? && m.backing == backing && Prefetch.Fresh(m.c)
    && m.g.LineBytes() == cfg.lineBytes && m.g.Sets() == cfg.sets && m.g.WayCount() == cfg.ways
    && m.g.hitLatency == AtLeastOne(cfg.hitLatency) && m.g.prefetch == prefetch && m.g.degree == AtLeastOne(degree)
  }

  /** A flat memory that takes `latency` cycles, behind the configured cache if there is one. */
  predicate PortAs(m: H.Mem, latency: nat, cfg: Option<CacheConfig>, prefetch: bool, degree: nat) {
    var flat := H.Flat(AtLeastOne(latency), false, 0);
    if cfg.None? then m == flat else CacheAs(m, cfg.value, prefetch, degree, flat)
  }

  /** Tables of the configured sizes, untrained. */
  predicate TablesAs(t: Tables, cfg: PredictorConfig) {
    t == NewTables(t.bhtBits, t.btbBits) && |t.bht| == cfg.bhtEntries && |t.btb| == cfg.btbEntries
  }

  /** A port so configured is quiet unless it prefetches, and its requests are bounded. */
  lemma PortBounds(m: H.Mem, latency: nat, cfg: Option<CacheConfig>, prefetch: bool, degree: nat)
    requires PortAs(m, latency, cfg, prefetch, degree)
    ensures CacheCost.Quiet(m) == (cfg.None? || !prefetch) && Waiting.MaxCost(m) == LongestWait(latency, cfg)
  {
    hide H.Cold, Pow2;
  }

  // ---- Memories and predictor ----

  /** A memory, with its cache if it has one. */
  method NewPort(latency: nat, cfg: Option<CacheConfig>, prefetch: bool, degree: nat) returns (p: Port)
    requires cfg.Some? ==> cfg.value.Ok()
    ensures p.Valid() && fresh(p.Repr) && p.Data() == map[]
    ensures PortAs(p.Model(), latency, cfg, prefetch, degree)
  {
    hide CacheConfig.Ok;
    p := NewFlat(latency);
    if cfg.Some? { p := NewCached(p, cfg.value, prefetch, degree); }
  }

  method NewFlat(latency: nat) returns (p: Port)
    ensures p.Valid() && fresh(p.Repr) && p.Data() == map[] && p.Model() == H.Flat(AtLeastOne(latency), false, 0)
  {
    var m := new FlatMem(latency);
    p := new Port.OfFlat(m);
  }

  method NewCached(backing: Port, c: CacheConfig, prefetch: bool, degree: nat) returns (p: Port)
    requires c.Ok() && backing.Valid()
    ensures p.Valid() && fresh(p.Repr - backing.Repr) && p.Data() == old(backing.Data())
    ensures CacheAs(p.Model(), c, prefetch, degree, old(backing.Model()))
  {
    hide H.Shape, H.CacheShape, Cache.State;
    var cache := new Cache(backing, c.lineBytes, c.sets, c.hitLatency, c.ways, prefetch, degree);
    CacheModel(cache);
    p := new Port.OfCache(cache);
  }

  /** A cache with an empty line table is a cold cache. */
  lemma CacheModel(c: Cache)
    requires c.Valid() && forall n | 0 <= n < c.lines.Length :: c.lines[n] == H.EMPTY_LINE
    ensures var s := c.State();
      s.phase == c.phase && s.pfActive == c.pfActive && s.useful == c.useful && s.useless == c.useless && H.Cold(s)
  {
    hide SetOf, H.CacheShape, H.SetShape, LineAt;
    c.Fit();
    var lines, bits := c.lines[..], c.repl.bits[..];
    forall i, w | 0 <= i < c.g.Sets() && 0 <= w < c.g.WayCount()
      ensures |SetOf(c.g, lines, bits, i).lines| == c.g.WayCount()
              && SetOf(c.g, lines, bits, i).lines[w] == H.EMPTY_LINE
    {
      LineOfSet(c.g, lines, bits, i, w);
    }
    forall i | 0 <= i < c.g.Sets() ensures |SetOf(c.g, lines, bits, i).lines| == c.g.WayCount() {
      LinesOfSet(c.g, lines, bits, i);
    }
  }

  method NewPredictor(cfg: Option<PredictorConfig>) returns (bp: Option<BranchPredictor>)
    requires cfg.Some? ==> cfg.value.Ok()
    ensures bp.Some? == cfg.Some? && BpValid(bp) && fresh(BpObjects(bp))
    ensures bp.Some? ==> TablesAs(BpModel(bp).value, cfg.value)
  {
    bp := None;
    if cfg.Some? {
      var b := new BranchPredictor(cfg.value.bhtEntries, cfg.value.btbEntries);
      bp := Some(b);
    }
  }

  // ---- Wiring ----

  datatype Hardware = Hardware(iport: Port, dport: Port, rf: RegFile, bp: Option<BranchPredictor>, stats: SimStats,
                               ifId: Latch<IfId>, idEx: Latch<IdEx>, exMem: Latch<ExMem>, memWb: Latch<MemWb>,
                               fetch: FetchStage, decode: DecodeStage, fwd: ForwardUnit, ex: ExecuteStage,
                               mem: MemAccessStage, wb: WritebackStage, hazard: HazardUnit)
  {
    ghost predicate Latches() {
      && ifId.bubble == IF_BUBBLE && idEx.bubble == ID_BUBBLE && exMem.bubble == EX_BUBBLE && memWb.bubble == MEM_BUBBLE
      && ifId as object != idEx && ifId as object != exMem && ifId as object != memWb
      && idEx as object != exMem && idEx as object != memWb && exMem as object != memWb
    }

    ghost predicate FrontWired() {
      && fetch.imem == iport && fetch.out == ifId && fetch.bp == bp
      && decode.rf == rf && decode.inp == ifId && decode.out == idEx
      && hazard.ifId == ifId && hazard.idEx == idEx && hazard.fetch == fetch && hazard.decode == decode
    }

    ghost predicate BackWired() {
      && fwd.exMem == exMem && fwd.memWb == memWb
      && ex.inp == idEx && ex.out == exMem && ex.fwd == fwd && ex.fetch == fetch && ex.decode == decode
      && ex.bp == bp && ex.stats == stats
      && mem.dmem == dport && mem.inp == exMem && mem.out == memWb
      && wb.rf == rf && wb.inp == memWb
    }

    /** None of these objects is in a memory. */
    ghost predicate NoneIn(objects: set<object>) {
      && rf !in objects && rf.regs !in objects && stats !in objects
      && ifId !in objects && idEx !in objects && exMem !in objects && memWb !in objects
      && fetch !in objects && decode !in objects && fwd !in objects && ex !in objects && mem !in objects
      && wb !in objects && hazard !in objects && BpObjects(bp) !! objects
    }

    ghost predicate Wired() {
      && Latches() && FrontWired() && BackWired() && BpValid(bp) && rf.regs !in BpObjects(bp)
      && iport.Repr !! dport.Repr && NoneIn(iport.Repr) && NoneIn(dport.Repr)
    }

    /** Nothing in flight, no signal raised, all counters and registers 0. */
    ghost predicate Empty(pc: Word)
      reads fetch, decode, ifId, idEx, exMem, memWb, fwd, stats, rf.regs
    {
      && fetch.pc == pc && !fetch.stall && !fetch.redirect && !decode.stall && !decode.flush
      && ifId.reg == IF_BUBBLE && idEx.reg == ID_BUBBLE && exMem.reg == EX_BUBBLE && memWb.reg == MEM_BUBBLE
      && fwd.prev == MEM_BUBBLE && rf.Valid() && (forall i | 0 <= i < 32 :: rf.regs[i] == 0)
      && stats.cycles == stats.instructions == stats.branchCorrect == stats.branchMispredicts == 0
    }
  }

  datatype Registers = Registers(l1: Latch<IfId>, l2: Latch<IdEx>, l3: Latch<ExMem>, l4: Latch<MemWb>, rf: RegFile,
      stats: SimStats)
  {
    ghost predicate Distinct() {
      && l1 as object != l2 && l1 as object != l3 && l1 as object != l4
      && l2 as object != l3 && l2 as object != l4 && l3 as object != l4
    }

    ghost predicate NoneIn(objects: set<object>) {
      && l1 !in objects && l2 !in objects && l3 !in objects && l4 !in objects && rf !in objects && rf.regs !in objects
      && stats !in objects
    }

    ghost predicate Empty()
      reads l1, l2, l3, l4, rf.regs, stats
    {
      && l1.bubble == IF_BUBBLE == l1.reg && l2.bubble == ID_BUBBLE == l2.reg && l3.bubble == EX_BUBBLE == l3.reg
      && l4.bubble == MEM_BUBBLE == l4.reg && rf.Valid() && (forall i | 0 <= i < 32 :: rf.regs[i] == 0)
      && stats.cycles == stats.instructions == stats.branchCorrect == stats.branchMispredicts == 0
    }
  }

  method NewRegisters() returns (r: Registers)
    ensures fresh(r.l1) && fresh(r.l2) && fresh(r.l3) && fresh(r.l4) && fresh(r.rf) && fresh(r.rf.regs)
    ensures fresh(r.stats)
    ensures r.Distinct() && r.Empty()
  {
    var l1 := new Latch(IF_BUBBLE);
    var l2 := new Latch(ID_BUBBLE);
    var l3 := new Latch(EX_BUBBLE);
    var l4 := new Latch(MEM_BUBBLE);
    var rf := new RegFile();
    var stats := new SimStats();
    r := Registers(l1, l2, l3, l4, rf, stats);
  }

  /** The stages, wired to the registers and to each other. */
  method NewStages(i: Port, d: Port, bp: Option<BranchPredictor>, r: Registers, pc: Word) returns (h: Hardware)
    requires i.Valid() && d.Valid() && BpValid(bp) && r.Empty() && r.Distinct()
    requires BpObjects(bp) !! i.Repr && r.NoneIn(i.Repr) && r.NoneIn(d.Repr)
    ensures h.iport == i && h.dport == d && h.bp == bp && h.rf == r.rf && h.stats == r.stats
    ensures h.ifId == r.l1 && h.idEx == r.l2 && h.exMem == r.l3 && h.memWb == r.l4
    ensures h.Latches() && h.FrontWired() && h.BackWired() && h.Empty(pc)
    ensures fresh(h.fetch) && fresh(h.decode) && fresh(h.fwd) && fresh(h.ex) && fresh(h.mem) && fresh(h.wb)
    ensures fresh(h.hazard)
  {
    hide Port.Valid, BpValid;
    var f := new FetchStage(i, r.l1, pc, bp);
    var dec := new DecodeStage(r.rf, r.l1, r.l2);
    var fw := new ForwardUnit(r.l3, r.l4);
    var x := new ExecuteStage(r.l2, r.l3, fw, f, dec, bp, r.stats);
    var m := new MemAccessStage(d, r.l3, r.l4);
    var w := new WritebackStage(r.rf, r.l4);
    var hz := new HazardUnit(r.l1, r.l2, f, dec);
    h := Hardware(i, d, r.rf, bp, r.stats, r.l1, r.l2, r.l3, r.l4, f, dec, fw, x, m, w, hz);
  }

  datatype Memories = Memories(iport: Port, dport: Port, bp: Option<BranchPredictor>)
  {
    ghost predicate Apart() {
      iport.Repr !! dport.Repr && BpObjects(bp) !! iport.Repr && BpObjects(bp) !! dport.Repr
    }

    /** As configured, without a byte written or a request made. */
    ghost predicate As(cfg: SimConfig)
      reads iport.Repr, dport.Repr, BpObjects(bp)
    {
      && iport.Valid() && dport.Valid() && BpValid(bp) && iport.Data() == map[] && dport.Data() == map[]
      && cfg.Built(iport.Model(), dport.Model(), BpModel(bp))
    }
  }

  method NewMemories(cfg: SimConfig) returns (m: Memories)
    requires cfg.Ok()
    ensures m.Apart() && m.As(cfg) && fresh(m.iport.Repr) && fresh(m.dport.Repr) && fresh(BpObjects(m.bp))
  {
    hide Port.Valid, Port.Model, Port.Data, H.Shape, BpModel, BranchPredictor.Valid, BranchPredictor.Model,
         CacheConfig.Ok, PredictorConfig.Ok, NewTables, PortAs, TablesAs;
    var b := NewPredictor(cfg.bpred);
    var i := NewPort(cfg.imemLatency, cfg.icache, cfg.icachePrefetch, cfg.icachePrefetchDegree);
    var d := NewPort(cfg.dmemLatency, cfg.dcache, false, 1);
    m := Memories(i, d, b);
  }

  lemma IsWired(h: Hardware, r: Registers)
    requires h.Latches() && h.FrontWired() && h.BackWired() && BpValid(h.bp)
    requires r == Registers(h.ifId, h.idEx, h.exMem, h.memWb, h.rf, h.stats)
    requires Memories(h.iport, h.dport, h.bp).Apart() && r.NoneIn(h.iport.Repr) && r.NoneIn(h.dport.Repr)
    requires h.rf.regs !in BpObjects(h.bp)
    requires StagesOutside(h, h.iport.Repr) && StagesOutside(h, h.dport.Repr)
    ensures h.Wired()
  {
    hide Hardware.Latches, Hardware.FrontWired, Hardware.BackWired, BpValid;
  }

  ghost predicate StagesOutside(h: Hardware, objects: set<object>) {
    && h.fetch !in objects && h.decode !in objects && h.fwd !in objects && h.ex !in objects && h.mem !in objects
    && h.wb !in objects && h.hazard !in objects
  }

  /** All parts of a core, as configured. */
  method NewHardware(cfg: SimConfig) returns (h: Hardware)
    requires cfg.Ok()
    ensures h.Wired() && h.Empty(cfg.ramBase) && Memories(h.iport, h.dport, h.bp).As(cfg)
    ensures fresh(h.iport.Repr) && fresh(h.dport.Repr) && fresh(BpObjects(h.bp))
    ensures fresh(h.ifId) && fresh(h.idEx) && fresh(h.exMem) && fresh(h.memWb) && fresh(h.rf) && fresh(h.rf.regs)
    ensures fresh(h.stats)
    ensures fresh(h.fetch) && fresh(h.decode) && fresh(h.fwd) && fresh(h.ex) && fresh(h.mem) && fresh(h.wb)
    ensures fresh(h.hazard)
  {
    hide Port.Valid, Port.Model, Port.Data, H.Shape, BpModel, BpValid, SimConfig.Ok, NewTables, PortAs,
         TablesAs, Hardware.Latches, Hardware.FrontWired, Hardware.BackWired, Hardware.Empty,
         Registers.Distinct, Registers.Empty, Hardware.Wired;
    var m := NewMemories(cfg);
    var r := NewRegisters();
    h := NewStages(m.iport, m.dport, m.bp, r, cfg.ramBase);
    IsWired(h, r);
  }
}
