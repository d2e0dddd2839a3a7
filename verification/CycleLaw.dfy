/** The exact cycle law: with single-cycle instruction memory, any prefetch-free data hierarchy and any
    predictor, the cycle count at halt is a sum over the interpreter's trace. */
module CycleLaw {
  import opened Words
  import opened Encoding
  import opened Decoder
  import opened ByteMemory
  import opened Interpreter
  import opened Pipeline
  import opened Refinement
  import opened Hierarchy
  import opened CacheCost
  import opened Machine
  import opened CommitRefinement

  // ---- Quantities of the interpreter's trace ----

  /** The data request of the instruction at a. */
  function DataRequest(prog: Bytes, a: Arch): Option<(Word, bool)> {
    var i := InstructionAt(prog, a.pc);
    match i.op
    case LB | LH | LW | LBU | LHU => Some((Effective(i, a.regs[i.rs1]), false))
    case SB | SH | SW => Some((Effective(i, a.regs[i.rs1]), true))
    case _ => None
  }

  /** The data hierarchy after the accesses of the first k instructions. */
  function DataAt(prog: Bytes, a: Arch, d: Mem, k: nat): (r: Mem)
    requires Shape(d) && Quiet(d)
    ensures Shape(r) && Quiet(r)
  {
    if k == 0 then d else AccessAt(prog, State(prog, a, k - 1), DataAt(prog, a, d, k - 1))
  }

  function AccessAt(prog: Bytes, a: Arch, d: Mem): (r: Mem)
    requires Shape(d) && Quiet(d)
    ensures Shape(r) && Quiet(r)
  {
    match DataRequest(prog, a)
    case None => d
    case Some((addr, isWrite)) => CacheCost.Access(d, addr, isWrite)
  }

  /** Cycles the instruction at a spends in MEM when the data hierarchy is in state d. */
  function MemCycles(prog: Bytes, a: Arch, d: Mem): Pos
    requires Shape(d) && Quiet(d)
  {
    match DataRequest(prog, a)
    case None => 1
    case Some((addr, isWrite)) => Cost(d, addr, isWrite)
  }

  /** Stall cycles in MEM of the first k instructions. */
  function DataStalls(prog: Bytes, a: Arch, d: Mem, k: nat): nat
    requires Shape(d) && Quiet(d)
  {
    if k == 0 then 0
    else DataStalls(prog, a, d, k - 1) + MemCycles(prog, State(prog, a, k - 1), DataAt(prog, a, d, k - 1)) - 1
  }

  /** A load at a whose nonzero rd is a raw register field of the next instruction. */
  predicate LoadUseAt(prog: Bytes, a: Arch) {
    var i := InstructionAt(prog, a.pc);
    var next := Fetch(prog, Exec(prog, a).pc);
    IsLoad(i.op) && i.rd != 0 && (i.rd == Rs1Field(next) || i.rd == Rs2Field(next))
  }

  /** Load-use pairs (j, j + 1) with j < k. */
  function LoadUses(prog: Bytes, a: Arch, k: nat): nat {
    if k == 0 then 0 else LoadUses(prog, a, k - 1) + (if LoadUseAt(prog, State(prog, a, k - 1)) then 1 else 0)
  }

  // ---- The ledger of a run ----

  /** Of each instruction that left EX in front of the first halting one: whether it redirected fetch,
      and the direction fetch had predicted; and the rounds the access in MEM has waited. */
  datatype Ledger = Ledger(missed: seq<bool>, predicted: seq<bool>, wait: nat)

  predicate Counts(s: Pipe) { s.idEx.valid && !HaltInWb(s) && !HaltInMem(s) }

  function LedgerTick(l: Ledger, m: Machine): Ledger
    requires WellFormed(m)
  {
    if m.pipe.halt.Stopped? then l
    else if Stalling(m) then l.(wait := l.wait + 1)
    else if Counts(m.pipe) then Ledger(l.missed + [Redirecting(m.pipe)], l.predicted + [m.pipe.idEx.predictedTaken], 0)
    else l.(wait := 0)
  }

  function LedgerOf(prog: Bytes, m: Machine, n: nat): Ledger
    requires WellFormed(m)
  {
    if n == 0 then Ledger([], [], 0) else LedgerTick(LedgerOf(prog, m, n - 1), Ticks(prog, m, n - 1))
  }

  /** The slot, in stall-free cycles, in which instruction j enters EX. */
  function Slot(prog: Bytes, a: Arch, missed: seq<bool>, j: nat): nat
    requires j <= |missed|
  {
    2 + j + LoadUses(prog, a, j) + 2 * Count(missed[..j])
  }

  // ---- Steps of the sums ----

  lemma StallsStep(prog: Bytes, a: Arch, d: Mem, k: nat)
    requires Shape(d) && Quiet(d)
    ensures DataStalls(prog, a, d, k + 1)
            == DataStalls(prog, a, d, k) + MemCycles(prog, State(prog, a, k), DataAt(prog, a, d, k)) - 1
    ensures DataAt(prog, a, d, k + 1) == AccessAt(prog, State(prog, a, k), DataAt(prog, a, d, k))
  {
    hide Shape, Quiet, MemCycles, AccessAt;
  }

  lemma SlotKeeps(prog: Bytes, a: Arch, missed: seq<bool>, more: seq<bool>, j: nat)
    requires j <= |missed|
    ensures Slot(prog, a, missed + more, j) == Slot(prog, a, missed, j)
  {
    assert (missed + more)[..j] == missed[..j];
    hide LoadUses, Count;
  }

  lemma SlotStep(prog: Bytes, a: Arch, missed: seq<bool>, flag: bool)
    ensures Slot(prog, a, missed + [flag], |missed| + 1)
            == Slot(prog, a, missed, |missed|) + 1 + (if LoadUseAt(prog, State(prog, a, |missed|)) then 1 else 0)
                + (if flag then 2 else 0)
  {
    var more := missed + [flag];
    assert more[..|missed| + 1] == more;
    assert missed[..|missed|] == missed;
    assert more[..|more| - 1] == missed;
    hide LoadUseAt, State;
  }

  // ---- Ideal fetch and quiet data ports ----

  predicate IdealFetch(m: Mem) { m.Flat? && m.latency == 1 }

  lemma IdealReady(m: Mem, addr: Word)
    requires IdealFetch(m) && Shape(m)
    ensures IsServed(Ready(m, addr, false)) && IdealFetch(Ready(m, addr, false))
    ensures IdealFetch(Tick(Ready(m, addr, false)))
  {
  }

  lemma QuietTick(m: Mem)
    requires Shape(m) && Quiet(m)
    ensures Tick(m) == m
  {
    match m
    case Flat(_, _, _) =>
    case Cached(g, c, b) => hide CacheShape;
  }

  // ---- The data port through an access ----

  /** The port when the instruction in MEM has waited `wait` rounds; d is the hierarchy before it. */
  predicate PortAt(x: ExMem, port: Mem, wait: nat, d: Mem)
    requires Shape(d) && Quiet(d)
  {
    if AsksData(x) then
      wait < Cost(d, x.aluOut, IsStore(x.op)) && port == Rounds(d, x.aluOut, IsStore(x.op), wait)
    else wait == 0 && port == d
  }

  lemma MemRequest(prog: Bytes, x: ExMem, a: Arch)
    requires x.valid && ExMemFor(prog, x, a)
    ensures DataRequest(prog, a) == if AsksData(x) then Some((x.aluOut, IsStore(x.op))) else None
  {
    var i := InstructionAt(prog, a.pc);
    ValueMatches(i, a.pc, a.regs[i.rs1], a.regs[i.rs2], a.mem);
    hide Decode, Fetch, AluResult, Effective, IsStore, IsMemOp, RdValue, WritesRd, IsLoad;
  }

  lemma PortWaits(addr: Word, isWrite: bool, wait: nat, d: Mem)
    requires Shape(d) && Quiet(d) && wait < Cost(d, addr, isWrite)
    ensures var port := Rounds(d, addr, isWrite, wait);
      && Round(port, addr, isWrite) == Rounds(d, addr, isWrite, wait + 1)
      && (IsServed(Ready(port, addr, isWrite)) == (wait + 1 == Cost(d, addr, isWrite)))
      && Rounds(d, addr, isWrite, Cost(d, addr, isWrite)) == CacheCost.Access(d, addr, isWrite)
  {
    hide Shape, Quiet, Ready, Round, IsServed, Rounds;
    HeldRequest(d, addr, isWrite);
    RoundsAgain(d, addr, isWrite, wait + 1);
    assert ServedAt(d, addr, isWrite, wait) == (wait + 1 == Cost(d, addr, isWrite));
  }

  /** A tick in which MEM stalls: one more round of the same access. */
  lemma PortStalls(m: Machine, wait: nat, d: Mem)
    requires WellFormed(m) && Shape(d) && Quiet(d) && PortAt(m.pipe.exMem, m.dport, wait, d) && Stalling(m)
    ensures PortAt(m.pipe.exMem, Tick(DataAsked(m)), wait + 1, d)
  {
    var x := m.pipe.exMem;
    PortWaits(x.aluOut, IsStore(x.op), wait, d);
    hide Shape, Quiet, Ready, Tick, IsServed, Rounds, IsMemOp, IsStore;
  }

  lemma PortPasses(m: Machine, wait: nat, d: Mem)
    requires WellFormed(m) && Shape(d) && Quiet(d) && PortAt(m.pipe.exMem, m.dport, wait, d) && !AsksData(m.pipe.exMem)
    ensures Tick(DataAsked(m)) == d && wait == 0
  {
    QuietTick(d);
    hide Shape, Quiet, Ready, Tick, IsServed, Rounds, AsksData;
  }

  lemma PortCompletes(m: Machine, wait: nat, d: Mem)
    requires WellFormed(m) && Shape(d) && Quiet(d) && PortAt(m.pipe.exMem, m.dport, wait, d) && !Stalling(m)
    requires AsksData(m.pipe.exMem)
    ensures var x := m.pipe.exMem;
      Tick(DataAsked(m)) == CacheCost.Access(d, x.aluOut, IsStore(x.op)) && Cost(d, x.aluOut, IsStore(x.op)) == wait + 1
  {
    var x := m.pipe.exMem;
    PortWaits(x.aluOut, IsStore(x.op), wait, d);
    hide Shape, Quiet, Ready, Tick, IsServed, Rounds, IsMemOp, IsStore, CacheCost.Access;
  }

  /** A tick in which MEM does not stall: the access, if any, is complete. */
  lemma PortFlows(prog: Bytes, a: Arch, m: Machine, wait: nat, d: Mem)
    requires WellFormed(m) && Shape(d) && Quiet(d) && PortAt(m.pipe.exMem, m.dport, wait, d) && !Stalling(m)
    requires m.pipe.exMem.valid ==> ExMemFor(prog, m.pipe.exMem, a)
    ensures Tick(DataAsked(m)) == (if m.pipe.exMem.valid then AccessAt(prog, a, d) else d)
    ensures m.pipe.exMem.valid ==> MemCycles(prog, a, d) == wait + 1
    ensures !m.pipe.exMem.valid ==> wait == 0
  {
    hide Shape, Quiet, Tick, DataRequest, ExMemFor, CacheCost.Access, WellFormed, PortAt, DataAsked, Stalling, Cost,
         IsStore;
    var x := m.pipe.exMem;
    if x.valid { MemRequest(prog, x, a); }
    if AsksData(x) { PortCompletes(m, wait, d); } else { PortPasses(m, wait, d); }
  }

  lemma PortStarts(x: ExMem, d: Mem)
    requires Shape(d) && Quiet(d)
    ensures PortAt(x, d, 0, d)
  {
    hide Shape, Quiet;
  }

  // ---- The front of the pipeline in time ----

  /** When EX, ID and fetch hold the next instructions, u stall-free cycles after reset. */
  predicate FrontTime(prog: Bytes, a: Arch, missed: seq<bool>, x: IdEx, f: IfId, u: int) {
    if x.valid then f.valid && u == Slot(prog, a, missed, |missed|)
    else u + (if f.valid then 1 else 2) == Slot(prog, a, missed, |missed|)
  }

  /** What EX decides is what the trace says: no redirect of a load, and the interlock sees the
      interpreter's next word. */
  lemma ExAgrees(prog: Bytes, s: Pipe, a: Arch)
    requires s.idEx.valid && s.ifId.valid && IdExFor(prog, s.idEx, a, s) && !IsHalting(s.idEx.op)
    requires FrontFor(prog, s.idEx, s.ifId, s.pc, a)
    ensures Redirecting(s) ==> !LoadUseAt(prog, a)
    ensures !Redirecting(s) ==> LoadUse(s.idEx, s.ifId) == LoadUseAt(prog, a)
  {
    FlowRedirect(prog, s.idEx, a, Operand1(s), Operand2(s));
    hide Fetch, Decode, Exec, Rs1Field, Rs2Field, Guess, Resolve, Redirects, RedirectTarget, Predictable, IsLoad,
         IsHalting;
    hide Operand1, Operand2;
  }

  lemma FrontTimeStep(prog: Bytes, a: Arch, missed: seq<bool>, s: Pipe, i: Inputs, u: int)
    requires FrontTime(prog, a, missed, s.idEx, s.ifId, u) && i.fetchReady
    requires s.idEx.valid ==>
      && (Redirecting(s) ==> !LoadUseAt(prog, State(prog, a, |missed|)))
      && (!Redirecting(s) ==> LoadUse(s.idEx, s.ifId) == LoadUseAt(prog, State(prog, a, |missed|)))
    ensures var t := FlowStep(prog, s, i);
      FrontTime(prog, a, if s.idEx.valid then missed + [Redirecting(s)] else missed, t.idEx, t.ifId, u + 1)
  {
    hide FlowStep, Slot, LoadUseAt, State, Operand1, Operand2, Redirects, LoadUse, DecodeOut, FetchOut, ExecuteOut,
         MemOut, MemStore;
    hide RegsAfterWb, HaltAfter, FetchNextPc, RedirectTarget;
    var t := FlowStep(prog, s, i);
    FlowShape(prog, s, i, t);
    if s.idEx.valid { SlotStep(prog, a, missed, Redirecting(s)); }
    FrontValid(prog, s, i);
  }

  lemma FrontValid(prog: Bytes, s: Pipe, i: Inputs)
    ensures DecodeOut(s.ifId, s.regs).valid == s.ifId.valid
    ensures FetchOut(prog, s.pc, i).valid == i.fetchReady
    ensures !s.idEx.valid ==> !Redirecting(s) && !LoadUse(s.idEx, s.ifId)
  {
    hide Decode, Fetch, Operand1, Operand2;
  }

  // ---- The invariant of a timed run ----

  function Bit(b: bool): nat { if b then 1 else 0 }

  /** Cycles that were not stalls of MEM. */
  function Unstalled(prog: Bytes, a: Arch, d: Mem, s: Pipe, wait: nat, k: nat): int
    requires Shape(d) && Quiet(d)
  {
    s.cycles - DataStalls(prog, a, d, k) - wait
  }

  /** Each stage that holds an instruction holds it in its slot: u stall-free cycles after reset, with
      instruction kW - 1 in WB if w, and instruction kW in MEM if x holds one. */
  predicate StageTimes(prog: Bytes, a: Arch, s: Pipe, l: Ledger, k: nat, u: int) {
    var kW := k + Bit(s.memWb.valid);
    var kM := kW + Bit(s.exMem.valid);
    && |l.missed| == (if HaltInWb(s) then kW else kM)
    && (s.memWb.valid ==> l.wait == 0 && u == Slot(prog, a, l.missed, k) + 2)
    && (!HaltInWb(s) && s.exMem.valid ==> u == Slot(prog, a, l.missed, kW) + 1)
    && (!HaltInWb(s) && !HaltInMem(s) ==> FrontTime(prog, a, l.missed, s.idEx, s.ifId, u))
  }

  /** k instructions retired, every stage in its slot, the port in the middle of MEM's access. */
  predicate TimeInv(prog: Bytes, a: Arch, d: Mem, m: Machine, l: Ledger, k: nat)
    requires Shape(d) && Quiet(d)
  {
    var s := m.pipe;
    var kW := k + Bit(s.memWb.valid);
    && IdealFetch(m.iport)
    && StageTimes(prog, a, s, l, k, Unstalled(prog, a, d, s, l.wait, kW))
    && PortAt(s.exMem, m.dport, l.wait, DataAt(prog, a, d, kW))
  }

  lemma StateAfter(prog: Bytes, a: Arch, k: nat, valid: bool)
    ensures After(prog, valid, State(prog, a, k)) == State(prog, a, k + Bit(valid))
  {
    hide Exec;
  }

  lemma StallShape(prog: Bytes, m: Machine)
    requires WellFormed(m) && m.pipe.halt.Running? && Stalling(m)
    ensures var n := MachineTick(prog, m); var s := m.pipe; var t := n.pipe;
      && t == StallStep(s) && n.dport == Tick(DataAsked(m)) && n.iport == FetchAsked(m)
      && !t.memWb.valid && t.exMem == s.exMem && t.ifId == s.ifId && t.idEx.valid == s.idEx.valid
      && t.cycles == s.cycles + 1 && !HaltInMem(s)
  {
    NoStallForHalt(m.pipe, InputsOf(m).dataReady);
    hide Shape, Tick, Ready, FetchAsked, DataAsked, IsServed, Capture, RegsAfterWb, HaltAfter, IsMemOp, IsHalting;
  }

  lemma StageTimesStall(prog: Bytes, a: Arch, s: Pipe, t: Pipe, l: Ledger, k: nat, u: int)
    requires StageTimes(prog, a, s, l, k, u) && !HaltInWb(s) && !HaltInMem(s)
    requires !t.memWb.valid && t.exMem == s.exMem && t.ifId == s.ifId && t.idEx.valid == s.idEx.valid
    ensures StageTimes(prog, a, t, l.(wait := l.wait + 1), k + Bit(s.memWb.valid), u)
  {
    hide Slot, IsHalting;
  }

  lemma StallPorts(prog: Bytes, m: Machine, wait: nat, e: Mem)
    requires WellFormed(m) && m.pipe.halt.Running? && Stalling(m) && IdealFetch(m.iport)
    requires Shape(e) && Quiet(e) && PortAt(m.pipe.exMem, m.dport, wait, e)
    ensures var n := MachineTick(prog, m); IdealFetch(n.iport) && PortAt(n.pipe.exMem, n.dport, wait + 1, e)
  {
    assert Shape(m.iport);
    hide Shape, Quiet, Tick, Ready, DataAsked, IsServed, MachineTick, PortAt, Stalling, StallStep, IdealFetch,
         WellFormed;
    StallShape(prog, m);
    IdealReady(m.iport, m.pipe.pc);
    PortStalls(m, wait, e);
  }

  lemma TimeStalls(prog: Bytes, a: Arch, d: Mem, m: Machine, l: Ledger, k: nat)
    requires Shape(d) && Quiet(d) && WellFormed(m) && m.pipe.halt.Running? && Stalling(m) && !HaltInWb(m.pipe)
    requires TimeInv(prog, a, d, m, l, k)
    ensures TimeInv(prog, a, d, MachineTick(prog, m), l.(wait := l.wait + 1), k + Bit(m.pipe.memWb.valid))
  {
    hide Shape, Quiet, DataAsked, FetchAsked, MachineTick, DataAt, DataStalls, PortAt, Stalling, StallStep;
    hide IdealFetch, WellFormed, StageTimes, HaltInMem, InputsOf;
    var kW := k + Bit(m.pipe.memWb.valid);
    StallShape(prog, m);
    StallPorts(prog, m, l.wait, DataAt(prog, a, d, kW));
    StageTimesStall(prog, a, m.pipe, MachineTick(prog, m).pipe, l, k, Unstalled(prog, a, d, m.pipe, l.wait, kW));
  }

  lemma FlowMachine(prog: Bytes, m: Machine)
    requires WellFormed(m) && m.pipe.halt.Running? && !Stalling(m)
    ensures var n := MachineTick(prog, m);
      n.pipe == FlowStep(prog, m.pipe, InputsOf(m)) && n.dport == Tick(DataAsked(m)) && n.iport == Tick(FetchAsked(m))
  {
    hide Shape, Tick, Ready, FetchAsked, DataAsked, FlowStep, StallStep, Trained, InputsOf;
  }

  /** The stages of a flowing cycle. */
  lemma FlowStages(prog: Bytes, m: Machine)
    requires WellFormed(m) && m.pipe.halt.Running? && !Stalling(m)
    ensures var s := m.pipe; var t := FlowStep(prog, s, InputsOf(m));
      && t.memWb.valid == s.exMem.valid && HaltInWb(t) == HaltInMem(s)
      && t.exMem.valid == s.idEx.valid && (s.idEx.valid ==> t.exMem.op == s.idEx.op)
      && t.cycles == s.cycles + 1
  {
    var s := m.pipe;
    FlowShape(prog, s, InputsOf(m), FlowStep(prog, s, InputsOf(m)));
    if s.exMem.valid { MemOutShape(s.exMem, s.mem, InputsOf(m).dataReady); }
    hide FlowStep, Operand1, Operand2, AluResult, ActuallyTaken, Target, MemStore, RegsAfterWb, DecodeOut, FetchOut,
         LoadedValue;
    hide RedirectTarget, FetchNextPc, IsMemOp, InputsOf, IsHalting, Redirects, LoadUse, Shape;
  }

  /** StageTimes for a flowing cycle, given what happened in front of MEM. */
  lemma StageTimesFlow(prog: Bytes, a: Arch, s: Pipe, t: Pipe, l: Ledger, l': Ledger, k: nat, u: int)
    requires StageTimes(prog, a, s, l, k, u) && !HaltInWb(s)
    requires l'.missed == (if Counts(s) then l.missed + [Redirecting(s)] else l.missed) && l'.wait == 0
    requires t.memWb.valid == s.exMem.valid && HaltInWb(t) == HaltInMem(s)
    requires t.exMem.valid == s.idEx.valid
    requires !HaltInWb(t) && !HaltInMem(t) ==> FrontTime(prog, a, l'.missed, t.idEx, t.ifId, u + 1)
    ensures StageTimes(prog, a, t, l', k + Bit(s.memWb.valid), u + 1)
  {
    hide Slot, IsHalting, Redirecting, FrontTime;
    var kW := k + Bit(s.memWb.valid);
    if Counts(s) {
      SlotKeeps(prog, a, l.missed, [Redirecting(s)], kW);
      SlotKeeps(prog, a, l.missed, [Redirecting(s)], |l.missed|);
      FrontAtSlot(prog, a, l.missed, s.idEx, s.ifId, u);
    }
  }

  lemma FrontAtSlot(prog: Bytes, a: Arch, missed: seq<bool>, x: IdEx, f: IfId, u: int)
    requires x.valid && FrontTime(prog, a, missed, x, f, u)
    ensures u == Slot(prog, a, missed, |missed|)
  {
    hide Slot;
  }

  lemma FrontFlows(prog: Bytes, a: Arch, s: Pipe, i: Inputs, missed: seq<bool>, u: int)
    requires s.idEx.valid ==> IdExFor(prog, s.idEx, State(prog, a, |missed|), s) && !IsHalting(s.idEx.op)
    requires FrontFor(prog, s.idEx, s.ifId, s.pc, State(prog, a, |missed|))
    requires FrontTime(prog, a, missed, s.idEx, s.ifId, u) && i.fetchReady
    ensures var t := FlowStep(prog, s, i);
      FrontTime(prog, a, if s.idEx.valid then missed + [Redirecting(s)] else missed, t.idEx, t.ifId, u + 1)
  {
    hide FlowStep, Slot, LoadUseAt, State, Redirecting, LoadUse, FrontFor, IdExFor, IsHalting;
    if s.idEx.valid { ExAgrees(prog, s, State(prog, a, |missed|)); }
    FrontTimeStep(prog, a, missed, s, i, u);
  }

  lemma InvParts(prog: Bytes, a: Arch, s: Pipe)
    requires Inv(prog, a, s) && !HaltInWb(s)
    ensures var aW := After(prog, s.memWb.valid, a); var aM := After(prog, s.exMem.valid, aW);
      && (s.exMem.valid ==> ExMemFor(prog, s.exMem, aW))
      && (!HaltInMem(s) ==> (s.idEx.valid ==> IdExFor(prog, s.idEx, aM, s)) && FrontFor(prog, s.idEx, s.ifId, s.pc, aM))
  {
    hide BackInv, ExMemFor, IdExFor, FrontFor, Exec, IsHalting;
  }

  /** The stages of a flowing cycle stay in their slots. */
  lemma StagesFlow(prog: Bytes, a: Arch, s: Pipe, i: Inputs, l: Ledger, l': Ledger, k: nat, u: int)
    requires Inv(prog, State(prog, a, k), s) && !HaltInWb(s) && i.fetchReady
    requires StageTimes(prog, a, s, l, k, u)
    requires l'.missed == (if Counts(s) then l.missed + [Redirecting(s)] else l.missed) && l'.wait == 0
    requires var t := FlowStep(prog, s, i);
      && t.memWb.valid == s.exMem.valid && HaltInWb(t) == HaltInMem(s)
      && t.exMem.valid == s.idEx.valid && (s.idEx.valid ==> t.exMem.op == s.idEx.op)
    ensures StageTimes(prog, a, FlowStep(prog, s, i), l', k + Bit(s.memWb.valid), u + 1)
  {
    hide FlowStep, Slot, Redirecting, FrontFor, IdExFor, IsHalting, FrontTime, Inv, Exec, ExMemFor, State;
    var kW := k + Bit(s.memWb.valid);
    var t := FlowStep(prog, s, i);
    if !HaltInMem(s) && !HaltInMem(t) {
      InvParts(prog, State(prog, a, k), s);
      StateAfter(prog, a, k, s.memWb.valid);
      StateAfter(prog, a, kW, s.exMem.valid);
      FrontFlows(prog, a, s, i, l.missed, u);
    }
    StageTimesFlow(prog, a, s, t, l, l', k, u);
  }

  /** The port of a flowing cycle is ready for the next instruction in MEM. */
  lemma DataFlows(prog: Bytes, a: Arch, d: Mem, m: Machine, wait: nat, k: nat)
    requires Shape(d) && Quiet(d) && WellFormed(m) && !Stalling(m)
    requires m.pipe.exMem.valid ==> ExMemFor(prog, m.pipe.exMem, State(prog, a, k))
    requires PortAt(m.pipe.exMem, m.dport, wait, DataAt(prog, a, d, k))
    ensures var k' := k + Bit(m.pipe.exMem.valid);
      && Tick(DataAsked(m)) == DataAt(prog, a, d, k')
      && DataStalls(prog, a, d, k') == DataStalls(prog, a, d, k) + wait
  {
    hide Shape, Quiet, Tick, ExMemFor, WellFormed, PortAt, DataAsked, Stalling, AccessAt, MemCycles, DataStalls,
         DataAt, State;
    PortFlows(prog, State(prog, a, k), m, wait, DataAt(prog, a, d, k));
    StallsStep(prog, a, d, k);
  }

  /** A flowing cycle is one more stall-free cycle, and leaves the port as the trace says. */
  lemma FlowsPort(prog: Bytes, a: Arch, d: Mem, m: Machine, l: Ledger, k: nat)
    requires Shape(d) && Quiet(d) && WellFormed(m) && m.pipe.halt.Running? && !Stalling(m) && !HaltInWb(m.pipe)
    requires Inv(prog, State(prog, a, k), m.pipe) && TimeInv(prog, a, d, m, l, k)
    ensures var s := m.pipe; var n := MachineTick(prog, m); var kW := k + Bit(s.memWb.valid);
            var kM := kW + Bit(s.exMem.valid);
      && IdealFetch(n.iport) && PortAt(n.pipe.exMem, n.dport, 0, DataAt(prog, a, d, kM))
      && DataStalls(prog, a, d, kM) == DataStalls(prog, a, d, kW) + l.wait
  {
    var s := m.pipe;
    var kW := k + Bit(s.memWb.valid);
    hide Shape, Quiet, Tick, WellFormed, MachineTick, DataAt, DataStalls, PortAt, Stalling, FlowStep, Inv, DataAsked,
         FetchAsked;
    hide IdealFetch, StageTimes, HaltInMem, HaltInWb, InputsOf, ExMemFor, IdExFor, FrontFor, Redirecting, IsHalting,
         Exec, State;
    FetchReady(m);
    FlowMachine(prog, m);
    InvParts(prog, State(prog, a, k), s);
    StateAfter(prog, a, k, s.memWb.valid);
    DataFlows(prog, a, d, m, l.wait, kW);
    PortStarts(MachineTick(prog, m).pipe.exMem, DataAt(prog, a, d, kW + Bit(s.exMem.valid)));
  }

  lemma FlowsStages(prog: Bytes, a: Arch, m: Machine, l: Ledger, k: nat, u: int)
    requires WellFormed(m) && m.pipe.halt.Running? && !Stalling(m) && !HaltInWb(m.pipe) && IdealFetch(m.iport)
    requires Inv(prog, State(prog, a, k), m.pipe) && StageTimes(prog, a, m.pipe, l, k, u)
    ensures var n := MachineTick(prog, m).pipe;
      && StageTimes(prog, a, n, LedgerTick(l, m), k + Bit(m.pipe.memWb.valid), u + 1)
      && n.cycles == m.pipe.cycles + 1 && n.memWb.valid == m.pipe.exMem.valid && HaltInWb(n) == HaltInMem(m.pipe)
      && LedgerTick(l, m).wait == 0
  {
    hide Shape, Tick, WellFormed, MachineTick, Stalling, FlowStep, Inv, DataAsked, FetchAsked;
    hide IdealFetch, StageTimes, HaltInMem, HaltInWb, InputsOf, Redirecting, IsHalting, Exec, State;
    FetchReady(m);
    FlowMachine(prog, m);
    FlowStages(prog, m);
    StagesFlow(prog, a, m.pipe, InputsOf(m), l, LedgerTick(l, m), k, u);
  }

  lemma TimeFlows(prog: Bytes, a: Arch, d: Mem, m: Machine, l: Ledger, k: nat)
    requires Shape(d) && Quiet(d) && WellFormed(m) && m.pipe.halt.Running? && !Stalling(m) && !HaltInWb(m.pipe)
    requires Inv(prog, State(prog, a, k), m.pipe) && TimeInv(prog, a, d, m, l, k)
    ensures TimeInv(prog, a, d, MachineTick(prog, m), LedgerTick(l, m), k + Bit(m.pipe.memWb.valid))
  {
    hide Shape, Quiet, WellFormed, MachineTick, DataAt, DataStalls, PortAt, Stalling, Inv, LedgerTick;
    hide IdealFetch, StageTimes, HaltInMem, HaltInWb, State;
    FlowsPort(prog, a, d, m, l, k);
    FlowsStages(prog, a, m, l, k, Unstalled(prog, a, d, m.pipe, l.wait, k + Bit(m.pipe.memWb.valid)));
  }

  lemma FetchReady(m: Machine)
    requires WellFormed(m) && IdealFetch(m.iport)
    ensures InputsOf(m).fetchReady && IdealFetch(Tick(FetchAsked(m)))
  {
    IdealReady(m.iport, m.pipe.pc);
    hide IdealFetch, Shape, Ready, Tick, IsServed, DataAsked, AsksData;
  }
}
