/** Whole runs of the core against the interpreter: the commit trace, precise halting, and
    independence of timing. */
module CommitRefinement {
  import opened Words
  import opened Decoder
  import opened ByteMemory
  import opened Interpreter
  import opened Pipeline
  import opened Refinement
  import opened Hierarchy
  import opened Predictor
  import opened Machine

  /** Architectural pcs are 4-aligned, or there is no predictor to be confused by them. */
  ghost predicate Admissible(prog: Bytes, a: Arch, m: Machine) { m.bp.None? || AlignedRun(prog, a) }

  /** The simulation invariant of a running core. */
  ghost predicate MachineInv(prog: Bytes, a: Arch, m: Machine) {
    && WellFormed(m) && m.pipe.halt.Running? && Inv(prog, a, m.pipe) && Admissible(prog, a, m)
    && (m.bp.Some? && !HaltInWb(m.pipe) ==> TablesOk(prog, m.bp.value))
  }

  lemma SoundInputs(prog: Bytes, a: Arch, m: Machine)
    requires MachineInv(prog, a, m) && !HaltInWb(m.pipe)
    ensures var p := InputsOf(m).prediction;
      (AlignedRun(prog, a) || Sound(prog, m.pipe.pc, p)) && (m.pipe.pc % 4 == 0 ==> Sound(prog, m.pipe.pc, p))
  {
    if m.bp.Some? && m.pipe.pc % 4 == 0 { PredictSound(prog, m.bp.value, m.pipe.pc); }
    hide Inv, Shape, Predict, TablesOk, AlignedRun, FetchAsked, DataAsked, IsServed, InstructionAt;
  }

  /** Training in EX keeps the tables right: what EX holds is on the path. */
  lemma TrainOk(prog: Bytes, a: Arch, t: Tables, s: Pipe)
    requires TablesOk(prog, t) && s.idEx.valid && IdExFor(prog, s.idEx, a, s) && a.pc % 4 == 0
    ensures TablesOk(prog, Trained(t, s))
  {
    var x := s.idEx;
    if Trains(x) {
      var target := Target(x.op, x.pc, x.imm, Operand1(s));
      assert EntryFor(prog, BtbEntry(true, BtbTag(t, x.pc), target, IsCondBranch(x.op)), x.pc) by {
        hide Resolve, Decode, Fetch, ToWord, BtbTag, Operand1, Operand2;
      }
      UpdateOk(prog, t, x.pc, IsCondBranch(x.op), ActuallyTaken(x.op, Operand1(s), Operand2(s)), target);
    }
    hide TablesOk, Update, EntryFor, IdExFor, Target, Operand1, Operand2;
  }

  lemma FrontFacts(prog: Bytes, a: Arch, s: Pipe)
    requires Inv(prog, a, s) && !HaltInWb(s) && !HaltInMem(s) && s.idEx.valid
    ensures IdExFor(prog, s.idEx, After(prog, s.exMem.valid, After(prog, s.memWb.valid, a)), s)
  {
    hide BackInv, ExMemFor, IdExFor, FrontFor, Exec, IsHalting;
  }

  lemma TablesStep(prog: Bytes, a: Arch, m: Machine)
    requires MachineInv(prog, a, m) && !HaltInWb(m.pipe) && m.bp.Some?
    ensures !HaltInMem(m.pipe) ==> TablesOk(prog, Trained(m.bp.value, m.pipe))
  {
    var s := m.pipe;
    var aW := After(prog, s.memWb.valid, a);
    var aM := After(prog, s.exMem.valid, aW);
    if !HaltInMem(s) && s.idEx.valid {
      AlignedAhead(prog, a);
      AlignedAhead(prog, aW);
      AlignedAhead(prog, aM);
      FrontFacts(prog, a, s);
      TrainOk(prog, aM, m.bp.value, s);
    }
    hide Inv, Shape, AlignedRun, TablesOk, Exec, IdExFor;
  }

  /** After a flowing cycle the halting instruction, if it was in MEM, is in WB. */
  lemma HaltMovesOn(prog: Bytes, s: Pipe, i: Inputs)
    requires s.halt.Running? && HaltInMem(s)
    ensures HaltInWb(Step(prog, s, i)) && !MemStalls(s.exMem, i.dataReady)
  {
    MemOutShape(s.exMem, s.mem, i.dataReady);
    hide MemOut, MemStore, Operand1, Operand2, ExecuteOut, DecodeOut, FetchOut, Redirects, LoadUse, RegsAfterWb;
  }

  lemma NoStallForHalt(s: Pipe, ready: bool)
    requires MemStalls(s.exMem, ready)
    ensures !HaltInMem(s)
  {
  }

  /** The interpreter stopped in a, and the core with it. */
  ghost predicate StoppedAt(prog: Bytes, a: Arch, s: Pipe) {
    && Halted(prog, a)
    && s.halt == Stopped(a.pc, Fetch(prog, a.pc), InstructionAt(prog, a.pc).op)
    && s.regs == a.regs && OneStoreApart(a.mem, s.mem)
  }

  lemma TickShape(prog: Bytes, m: Machine)
    requires WellFormed(m) && m.pipe.halt.Running?
    ensures var n := MachineTick(prog, m);
      && WellFormed(n) && n.pipe == Step(prog, m.pipe, InputsOf(m))
      && n.bp == (if m.bp.Some? && !Stalling(m) then Some(Trained(m.bp.value, m.pipe)) else m.bp)
  {
    hide Shape, Step, Trained, InputsOf, Stalling, FetchAsked, DataAsked, Tick;
  }

  lemma AdmissibleStep(prog: Bytes, a: Arch, m: Machine, n: Machine, valid: bool)
    requires Admissible(prog, a, m) && (m.bp.None? ==> n.bp.None?)
    ensures Admissible(prog, After(prog, valid, a), n)
  {
    if AlignedRun(prog, a) { AlignedAhead(prog, a); }
    hide AlignedRun, Exec;
  }

  /** The tables after a tick that does not stop the core. */
  lemma TickTables(prog: Bytes, a: Arch, m: Machine)
    requires MachineInv(prog, a, m) && !HaltInWb(m.pipe)
    ensures var n := MachineTick(prog, m); n.bp.Some? && !HaltInWb(n.pipe) ==> TablesOk(prog, n.bp.value)
  {
    TickShape(prog, m);
    if m.bp.Some? {
      TablesStep(prog, a, m);
      if HaltInMem(m.pipe) { HaltMovesOn(prog, m.pipe, InputsOf(m)); }
    }
    hide Inv, Shape, Step, Trained, InputsOf, TablesOk, MachineTick, AlignedRun, HaltInWb, HaltInMem, MemStalls;
  }

  /** One tick of a running core. */
  lemma TickRefines(prog: Bytes, a: Arch, m: Machine)
    requires MachineInv(prog, a, m)
    ensures var n := MachineTick(prog, m); var w := m.pipe.memWb;
      && Retired(m) == (if w.valid then [CommitAt(prog, a)] else [])
      && n.pipe.cycles == m.pipe.cycles + 1 && n.pipe.instructions == m.pipe.instructions + |Retired(m)|
      && (if w.valid && Halted(prog, a) then StoppedAt(prog, a, n.pipe)
          else MachineInv(prog, After(prog, w.valid, a), n))
  {
    var s := m.pipe;
    var i := InputsOf(m);
    TickShape(prog, m);
    ValidOpWb(prog, a, s);
    if HaltInWb(s) {
      StopsHere(prog, a, s, i);
      StepCounts(prog, s, i);
    } else {
      SoundInputs(prog, a, m);
      StepRefines(prog, a, s, i);
      TickTables(prog, a, m);
      AdmissibleStep(prog, a, m, MachineTick(prog, m), s.memWb.valid);
    }
    hide Inv, Shape, Step, Trained, InputsOf, TablesOk, MachineTick, AlignedRun, HaltInWb, Exec, CommitAt, CommitOf;
    hide Halted, InstructionAt, OneStoreApart, Sound, WellFormed, Stalling, IsHalting, Admissible;
  }

  lemma ValidOpWb(prog: Bytes, a: Arch, s: Pipe)
    requires Inv(prog, a, s)
    ensures s.memWb.valid ==> CommitOf(s.memWb) == CommitAt(prog, a) && (HaltInWb(s) == Halted(prog, a))
    ensures HaltInWb(s) ==> s.memWb.valid
  {
    ValidOp(prog, s.memWb, s.exMem, a);
    hide Exec, ExMemFor, IdExFor, FrontFor, Halted, IsHalting, CommitOf, CommitAt, InstructionAt;
  }

  lemma StepCounts(prog: Bytes, s: Pipe, i: Inputs)
    requires s.halt.Running?
    ensures Step(prog, s, i).cycles == s.cycles + 1
    ensures Step(prog, s, i).instructions == s.instructions + (if s.memWb.valid then 1 else 0)
  {
    hide Operand1, Operand2, Redirects, LoadUse, RegsAfterWb, MemOut, MemStore, ExecuteOut, DecodeOut, FetchOut,
         Capture;
  }

  // ---- Runs ----

  lemma StartsInv(prog: Bytes, a: Arch, m: Machine)
    requires Starts(a, m) && Admissible(prog, a, m)
    ensures MachineInv(prog, a, m)
  {
    if m.bp.Some? { NewTablesOk(prog, m.bp.value.bhtBits, m.bp.value.btbBits); }
    assert Inv(prog, a, m.pipe) by { hide Exec; }
    hide Inv, Shape, AlignedRun, TablesOk, NewTables;
  }

  /** What holds after n ticks, k instructions having retired. */
  ghost predicate RunInv(prog: Bytes, a: Arch, m: Machine, n: nat, k: nat)
    requires WellFormed(m)
  {
    var r := Ticks(prog, m, n);
    && CommitTrace(prog, m, n) == Trace(prog, a, k)
    && r.pipe.instructions == k
    && (if r.pipe.halt.Running? then
          && MachineInv(prog, State(prog, a, k), r) && r.pipe.cycles == n
          && (k > 0 ==> !Halted(prog, State(prog, a, k - 1)))
        else
          k > 0 && StoppedAt(prog, State(prog, a, k - 1), r.pipe)
          && (k > 1 ==> !Halted(prog, State(prog, a, k - 2))))
  }

  lemma TicksStep(prog: Bytes, m: Machine, n: nat)
    requires WellFormed(m) && n > 0
    ensures Ticks(prog, m, n) == MachineTick(prog, Ticks(prog, m, n - 1))
    ensures CommitTrace(prog, m, n) == CommitTrace(prog, m, n - 1) + Retired(Ticks(prog, m, n - 1))
  {
  }

  lemma TraceStep(prog: Bytes, a: Arch, k: nat)
    ensures Trace(prog, a, k + 1) == Trace(prog, a, k) + [CommitAt(prog, State(prog, a, k))]
    ensures State(prog, a, k + 1) == Exec(prog, State(prog, a, k))
  {
    hide CommitAt, Exec;
  }

  lemma RunStep(prog: Bytes, a: Arch, m: Machine, n: nat, k: nat)
    requires WellFormed(m) && RunInv(prog, a, m, n, k)
    ensures RunInv(prog, a, m, n + 1, k + |Retired(Ticks(prog, m, n))|)
  {
    hide Shape, WellFormed, MachineInv, StoppedAt, Exec, CommitAt, CommitOf, Ticks, CommitTrace, Trace, State, Halted;
    var r := Ticks(prog, m, n);
    var t := State(prog, a, k);
    TicksStep(prog, m, n + 1);
    if r.pipe.halt.Running? {
      TickRefines(prog, t, r);
      RunningAfter(prog, t, r);
      hide MachineTick;
      TraceStep(prog, a, k);
      assert Retired(r) == [CommitAt(prog, t)] || Retired(r) == [];
      assert CommitTrace(prog, m, n) + [] == CommitTrace(prog, m, n);
    } else {
      StaysStopped(prog, r);
      assert CommitTrace(prog, m, n) + [] == CommitTrace(prog, m, n);
    }
  }

  lemma RunningAfter(prog: Bytes, a: Arch, m: Machine)
    requires MachineInv(prog, a, m)
    ensures var n := MachineTick(prog, m);
      n.pipe.halt.Running? == !(m.pipe.memWb.valid && Halted(prog, a))
  {
    TickRefines(prog, a, m);
    hide Inv, Shape, Halted, MachineTick, Exec, TablesOk, Admissible;
  }

  lemma StaysStopped(prog: Bytes, m: Machine)
    requires WellFormed(m) && m.pipe.halt.Stopped?
    ensures MachineTick(prog, m) == m && Retired(m) == []
  {
  }

  lemma RunBase(prog: Bytes, a: Arch, m: Machine)
    requires Starts(a, m) && Admissible(prog, a, m)
    ensures RunInv(prog, a, m, 0, 0) && CommitTrace(prog, m, 0) == []
  {
    StartsInv(prog, a, m);
    hide MachineInv, Shape, Admissible, NewTables, TablesShape;
    assert Ticks(prog, m, 0) == m;
  }

  lemma StartsWell(a: Arch, m: Machine)
    requires Starts(a, m)
    ensures WellFormed(m)
  {
    hide Shape, TablesShape, NewTables, Initial;
  }

  lemma {:induction false} RunHolds(prog: Bytes, a: Arch, m: Machine, n: nat)
    requires Starts(a, m) && Admissible(prog, a, m)
    ensures WellFormed(m)
    ensures RunInv(prog, a, m, n, |CommitTrace(prog, m, n)|)
  {
    hide Starts, RunInv, WellFormed, Admissible, CommitTrace, Ticks, Retired, AlignedRun;
    StartsWell(a, m);
    if n == 0 {
      RunBase(prog, a, m);
    } else {
      RunHolds(prog, a, m, n - 1);
      RunStep(prog, a, m, n - 1, |CommitTrace(prog, m, n - 1)|);
      TicksStep(prog, m, n);
    }
  }

  // ---- Main theorems ----

  /** The interpreter's first EBREAK or illegal instruction is instruction n of the run from a. */
  ghost predicate HaltsAt(prog: Bytes, a: Arch, n: nat) {
    Halted(prog, State(prog, a, n)) && forall j | 0 <= j < n :: !Halted(prog, State(prog, a, j))
  }

  lemma {:induction false} HaltedStays(prog: Bytes, a: Arch, i: nat, j: nat)
    requires i <= j && Halted(prog, State(prog, a, i))
    ensures State(prog, a, j) == State(prog, a, i)
  {
    if i < j {
      HaltedStays(prog, a, i, j - 1);
      hide InstructionAt, NextPc, RdValue, StoreResult, WritesRd, SetReg;
    }
  }

  lemma NoneHaltedBefore(prog: Bytes, a: Arch, k: nat)
    requires !Halted(prog, State(prog, a, k))
    ensures forall j | 0 <= j <= k :: !Halted(prog, State(prog, a, j))
  {
    forall j | 0 <= j <= k ensures !Halted(prog, State(prog, a, j)) {
      if Halted(prog, State(prog, a, j)) { HaltedStays(prog, a, j, k); }
    }
  }

  lemma {:induction false} TracePrefix(prog: Bytes, a: Arch, i: nat, j: nat)
    requires i <= j
    ensures Trace(prog, a, i) <= Trace(prog, a, j)
  {
    hide CommitAt, State;
    if i < j { TracePrefix(prog, a, i, j - 1); }
  }

  /** Commit refinement: for every program, initial state, latencies, caches and predictor, the entries
      retired by any number of ticks are the interpreter's trace, up to and including its first
      EBREAK or illegal instruction and never past it; while the core runs, no retired instruction
      halts the interpreter. */
  lemma CommitsRefine(prog: Bytes, a: Arch, m: Machine, n: nat)
    requires Starts(a, m) && Admissible(prog, a, m)
    ensures var r := Ticks(prog, m, n); var k := |CommitTrace(prog, m, n)|;
      && CommitTrace(prog, m, n) == Trace(prog, a, k) && r.pipe.instructions == k
      && (if r.pipe.halt.Running? then forall j | 0 <= j < k :: !Halted(prog, State(prog, a, j))
          else k > 0 && HaltsAt(prog, a, k - 1))
  {
    hide WellFormed, MachineInv, Halted, State, Ticks, CommitTrace, Trace, StoppedAt, Starts, Admissible;
    RunHolds(prog, a, m, n);
    var r := Ticks(prog, m, n);
    var k := |CommitTrace(prog, m, n)|;
    if r.pipe.halt.Running? {
      if k > 0 { NoneHaltedBefore(prog, a, k - 1); }
    } else {
      StoppedHalted(prog, State(prog, a, k - 1), r.pipe);
      if k > 1 { NoneHaltedBefore(prog, a, k - 2); }
    }
  }

  lemma StoppedHalted(prog: Bytes, a: Arch, s: Pipe)
    requires StoppedAt(prog, a, s)
    ensures Halted(prog, a)
  {
  }

  /** Halt precision: a stopped core names the interpreter's first halting instruction, its registers
      are the interpreter's, and so is its memory but for at most one younger store. */
  lemma HaltPrecision(prog: Bytes, a: Arch, m: Machine, n: nat)
    requires Starts(a, m) && Admissible(prog, a, m) && Ticks(prog, m, n).pipe.halt.Stopped?
    ensures var s := Ticks(prog, m, n).pipe; var k := |CommitTrace(prog, m, n)|;
      && k > 0 && HaltsAt(prog, a, k - 1)
      && var f := State(prog, a, k - 1);
         s.halt == Stopped(f.pc, Fetch(prog, f.pc), InstructionAt(prog, f.pc).op)
         && s.regs == f.regs && OneStoreApart(f.mem, s.mem)
  {
    CommitsRefine(prog, a, m, n);
    RunHolds(prog, a, m, n);
    hide WellFormed, MachineInv, Halted, State, Ticks, CommitTrace, Trace, OneStoreApart, Starts, HaltsAt,
         InstructionAt;
  }

  /** Timing independence: two cores with the same program and initial state, whatever their latencies,
      cache geometries, prefetching and predictors, retire traces of which one is a prefix of the
      other; if both have stopped the traces and the final registers are equal. */
  lemma TimingIndependence(prog: Bytes, a: Arch, m1: Machine, m2: Machine, n1: nat, n2: nat)
    requires Starts(a, m1) && Admissible(prog, a, m1) && Starts(a, m2) && Admissible(prog, a, m2)
    ensures CommitTrace(prog, m1, n1) <= CommitTrace(prog, m2, n2)
            || CommitTrace(prog, m2, n2) <= CommitTrace(prog, m1, n1)
    ensures Ticks(prog, m1, n1).pipe.halt.Stopped? && Ticks(prog, m2, n2).pipe.halt.Stopped?
            ==> CommitTrace(prog, m1, n1) == CommitTrace(prog, m2, n2)
                && Ticks(prog, m1, n1).pipe.regs == Ticks(prog, m2, n2).pipe.regs
                && Ticks(prog, m1, n1).pipe.halt == Ticks(prog, m2, n2).pipe.halt
  {
    PrefixOrEqual(prog, a, m1, m2, n1, n2);
    hide WellFormed, Ticks, CommitTrace, Starts, Admissible;
    if Ticks(prog, m1, n1).pipe.halt.Stopped? && Ticks(prog, m2, n2).pipe.halt.Stopped? {
      BothStopped(prog, a, m1, m2, n1, n2);
    }
  }

  lemma PrefixOrEqual(prog: Bytes, a: Arch, m1: Machine, m2: Machine, n1: nat, n2: nat)
    requires Starts(a, m1) && Admissible(prog, a, m1) && Starts(a, m2) && Admissible(prog, a, m2)
    ensures WellFormed(m1) && WellFormed(m2)
    ensures CommitTrace(prog, m1, n1) <= CommitTrace(prog, m2, n2)
            || CommitTrace(prog, m2, n2) <= CommitTrace(prog, m1, n1)
  {
    assert WellFormed(m1) && WellFormed(m2);
    hide WellFormed, Halted, State, Ticks, CommitTrace, Trace, Starts, Admissible, HaltsAt;
    var k1, k2 := |CommitTrace(prog, m1, n1)|, |CommitTrace(prog, m2, n2)|;
    CommitsRefine(prog, a, m1, n1);
    CommitsRefine(prog, a, m2, n2);
    if k1 <= k2 { TracePrefix(prog, a, k1, k2); } else { TracePrefix(prog, a, k2, k1); }
  }

  lemma HaltUnique(prog: Bytes, a: Arch, i: nat, j: nat)
    requires HaltsAt(prog, a, i) && HaltsAt(prog, a, j)
    ensures i == j
  {
    hide Halted, State;
  }

  lemma BothStopped(prog: Bytes, a: Arch, m1: Machine, m2: Machine, n1: nat, n2: nat)
    requires Starts(a, m1) && Admissible(prog, a, m1) && Starts(a, m2) && Admissible(prog, a, m2)
    requires WellFormed(m1) && WellFormed(m2)
    requires Ticks(prog, m1, n1).pipe.halt.Stopped? && Ticks(prog, m2, n2).pipe.halt.Stopped?
    ensures CommitTrace(prog, m1, n1) == CommitTrace(prog, m2, n2)
    ensures Ticks(prog, m1, n1).pipe.regs == Ticks(prog, m2, n2).pipe.regs
    ensures Ticks(prog, m1, n1).pipe.halt == Ticks(prog, m2, n2).pipe.halt
  {
    hide WellFormed, Halted, State, Ticks, CommitTrace, Trace, Starts, Admissible, HaltsAt, OneStoreApart,
         InstructionAt, Fetch;
    CommitsRefine(prog, a, m1, n1);
    CommitsRefine(prog, a, m2, n2);
    HaltPrecision(prog, a, m1, n1);
    HaltPrecision(prog, a, m2, n2);
    HaltUnique(prog, a, |CommitTrace(prog, m1, n1)| - 1, |CommitTrace(prog, m2, n2)| - 1);
  }

  lemma {:induction false} KeepsPredictor(prog: Bytes, m: Machine, n: nat)
    requires WellFormed(m)
    ensures Ticks(prog, m, n).bp.Some? == m.bp.Some?
  {
    hide WellFormed, Trained, Step, InputsOf, FetchAsked, DataAsked, Stalling;
    if n > 0 { KeepsPredictor(prog, m, n - 1); TicksStep(prog, m, n); }
  }

  /** Operand correctness, in every reachable state and through stalls of any length: the operands
      that EX resolves for a valid instruction, not younger than a halting one, are the register
      values after all older instructions. */
  lemma OperandCorrectness(prog: Bytes, a: Arch, m: Machine, n: nat)
    requires Starts(a, m) && Admissible(prog, a, m)
    ensures var r := Ticks(prog, m, n).pipe; var k := |CommitTrace(prog, m, n)|;
      r.halt.Running? && r.idEx.valid && !HaltInWb(r) && !HaltInMem(r) ==>
        var older := State(prog, a, k + (if r.memWb.valid then 1 else 0) + (if r.exMem.valid then 1 else 0));
        r.idEx.pc == older.pc && Operand1(r) == older.regs[r.idEx.rs1] && Operand2(r) == older.regs[r.idEx.rs2]
  {
    RunHolds(prog, a, m, n);
    var r := Ticks(prog, m, n).pipe;
    var k := |CommitTrace(prog, m, n)|;
    hide WellFormed, Ticks, CommitTrace, Trace, TablesOk, Admissible, Exec, Resolve, Inv, CommitAt;
    if r.halt.Running? && r.idEx.valid && !HaltInWb(r) && !HaltInMem(r) {
      FrontFacts(prog, State(prog, a, k), r);
      TraceStep(prog, a, k);
      TraceStep(prog, a, k + 1);
      hide State;
    }
  }
}
