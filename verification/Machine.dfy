/** The whole core: the pipeline, its two memory ports and its predictor, clocked together
    (src/sim/core.cpp:61-144).  Data is kept by the pipeline state; ports keep timing only. */
module Machine {
  import opened Words
  import opened Decoder
  import opened ByteMemory
  import opened Interpreter
  import opened Pipeline
  import opened Hierarchy
  import opened Predictor

  datatype Machine = Machine(pipe: Pipe, iport: Mem, dport: Mem, bp: Option<Tables>)

  predicate WellFormed(m: Machine) {
    Shape(m.iport) && Shape(m.dport) && (m.bp.Some? ==> TablesShape(m.bp.value))
  }

  /** The data request of the instruction in MEM, if it makes one. */
  predicate AsksData(x: ExMem) { x.valid && IsMemOp(x.op) }

  /** The data port after the evaluate phase. */
  function DataAsked(m: Machine): (d: Mem)
    requires WellFormed(m)
    ensures Shape(d)
  {
    var x := m.pipe.exMem;
    if AsksData(x) then Ready(m.dport, x.aluOut, IsStore(x.op)) else m.dport
  }

  function FetchAsked(m: Machine): (d: Mem)
    requires WellFormed(m)
    ensures Shape(d)
  {
    Ready(m.iport, m.pipe.pc, false)
  }

  function InputsOf(m: Machine): Inputs
    requires WellFormed(m)
  {
    Inputs(IsServed(FetchAsked(m)),
           AsksData(m.pipe.exMem) && IsServed(DataAsked(m)),
           if m.bp.Some? then Predict(m.bp.value, m.pipe.pc) else Prediction(false, 0))
  }

  predicate Stalling(m: Machine)
    requires WellFormed(m)
  {
    MemStalls(m.pipe.exMem, InputsOf(m).dataReady)
  }

  /** ExecuteStage::latch trains the predictor on conditional branches and JAL. */
  function Trained(t: Tables, s: Pipe): (u: Tables)
    requires TablesShape(t)
    ensures TablesShape(u)
  {
    var x := s.idEx;
    if !Trains(x) then t
    else
      Update(t, x.pc, IsCondBranch(x.op), ActuallyTaken(x.op, Operand1(s), Operand2(s)),
             Target(x.op, x.pc, x.imm, Operand1(s)))
  }

  function MachineTick(prog: Bytes, m: Machine): (n: Machine)
    requires WellFormed(m)
    ensures WellFormed(n)
  {
    if m.pipe.halt.Stopped? then m
    else
      Machine(Step(prog, m.pipe, InputsOf(m)),
              if Stalling(m) then FetchAsked(m) else Tick(FetchAsked(m)),
              Tick(DataAsked(m)),
              if m.bp.Some? && !Stalling(m) then Some(Trained(m.bp.value, m.pipe)) else m.bp)
  }

  /** n calls of tick. */
  function Ticks(prog: Bytes, m: Machine, n: nat): (r: Machine)
    requires WellFormed(m)
    ensures WellFormed(r)
  {
    if n == 0 then m else MachineTick(prog, Ticks(prog, m, n - 1))
  }

  /** What one tick retires. */
  function Retired(m: Machine): seq<Commit> {
    if m.pipe.halt.Running? && m.pipe.memWb.valid then [CommitOf(m.pipe.memWb)] else []
  }

  /** The commit trace of n ticks. */
  function CommitTrace(prog: Bytes, m: Machine, n: nat): seq<Commit>
    requires WellFormed(m)
  {
    if n == 0 then [] else CommitTrace(prog, m, n - 1) + Retired(Ticks(prog, m, n - 1))
  }

  /** A core as constructed over architectural state a. */
  predicate Starts(a: Arch, m: Machine) {
    WellFormed(m) && m.pipe == Initial(a)
        && (m.bp.Some? ==> m.bp.value == NewTables(m.bp.value.bhtBits, m.bp.value.btbBits))
  }
}
