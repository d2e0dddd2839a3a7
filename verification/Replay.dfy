/** The predictor replayed over the interpreter's trace: which directions a core with single-cycle fetch
    predicts, and hence how many cycles it loses, from the program, its start and the tables alone. */
module Replay {
  import opened Words
  import opened Decoder
  import opened ByteMemory
  import opened Interpreter
  import opened Pipeline
  import opened Refinement
  import opened Hierarchy
  import opened CacheCost
  import opened Predictor
  import opened Machine
  import opened CommitRefinement
  import opened CycleLaw
  import opened CycleCount
  import opened HaltMemory

  // ---- The replay ----

  /** The tables after the instruction at a has left EX. */
  function TrainedBy(prog: Bytes, a: Arch, t: Tables): (u: Tables)
    requires TablesShape(t)
    ensures TablesShape(u)
  {
    var i := InstructionAt(prog, a.pc);
    match i.op
    case BEQ | BNE | BLT | BGE | BLTU | BGEU => Update(t, a.pc, true, TakenAt(prog, a), Add(a.pc, ToWord(i.imm)))
    case JAL => Update(t, a.pc, false, true, Add(a.pc, ToWord(i.imm)))
    case _ => t
  }

  /** The tables after the first k instructions have left EX. */
  function TablesAt(prog: Bytes, a: Arch, t: Tables, k: nat): (u: Tables)
    requires TablesShape(t)
    ensures TablesShape(u)
  {
    if k == 0 then t else TrainedBy(prog, State(prog, a, k - 1), TablesAt(prog, a, t, k - 1))
  }

  /** The direction predicted for instruction j. */
  function Direction(prog: Bytes, a: Arch, bp: Option<Tables>, j: nat): bool
    requires bp.Some? ==> TablesShape(bp.value)
    decreases j, 1
  {
    match bp
    case None => false
    case Some(t) => Predict(TablesAt(prog, a, t, Seen(prog, a, bp, j)), State(prog, a, j).pc).taken
  }

  /** How many instructions have left EX when instruction j is fetched: all before it after a miss, all but
      one after a bubble, and otherwise all but two. */
  function Seen(prog: Bytes, a: Arch, bp: Option<Tables>, j: nat): nat
    requires bp.Some? ==> TablesShape(bp.value)
    decreases j, 0
  {
    if j == 0 || Missed(prog, a, bp, j - 1) then j
    else if j == 1 || Missed(prog, a, bp, j - 2) || LoadUseAt(prog, State(prog, a, j - 2)) then j - 1
    else j - 2
  }

  predicate Missed(prog: Bytes, a: Arch, bp: Option<Tables>, j: nat)
    requires bp.Some? ==> TablesShape(bp.value)
    decreases j, 2
  {
    Direction(prog, a, bp, j) != TakenAt(prog, State(prog, a, j))
  }

  // ---- The run follows the replay ----

  function TablesAfter(prog: Bytes, a: Arch, bp: Option<Tables>, k: nat): (r: Option<Tables>)
    requires bp.Some? ==> TablesShape(bp.value)
    ensures r.Some? ==> TablesShape(r.value)
  {
    match bp
    case None => None
    case Some(t) => Some(TablesAt(prog, a, t, k))
  }

  /** Why EX holds a bubble when k instructions have left it. */
  predicate Bubbled(prog: Bytes, a: Arch, bp: Option<Tables>, k: nat, held: bool)
    requires bp.Some? ==> TablesShape(bp.value)
  {
    k == 0 || Missed(prog, a, bp, k - 1) || (held && LoadUseAt(prog, State(prog, a, k - 1)))
  }

  /** EX leads to what is behind it: it does not halt, and its direction was predicted. */
  predicate Leads(prog: Bytes, a: Arch, x: IdEx) {
    x.valid ==> !Halted(prog, a) && x.predictedTaken == TakenAt(prog, a)
  }

  /** The directions the front of the pipeline carries, when k instructions have left EX. */
  predicate FrontGuess(prog: Bytes, a: Arch, bp: Option<Tables>, x: IdEx, f: IfId, k: nat)
    requires bp.Some? ==> TablesShape(bp.value)
  {
    && (x.valid ==> x.predictedTaken == Direction(prog, a, bp, k))
    && (f.valid && Leads(prog, State(prog, a, k), x) ==> f.predictedTaken == Direction(prog, a, bp, k + Bit(x.valid)))
    && (!x.valid ==> Bubbled(prog, a, bp, k, f.valid))
  }

  /** Training in EX is training on the trace. */
  lemma TrainedIs(prog: Bytes, s: Pipe, a: Arch, t: Tables)
    requires TablesShape(t) && s.idEx.valid && IdExFor(prog, s.idEx, a, s)
    ensures Trained(t, s) == TrainedBy(prog, a, t)
  {
    hide Decode, Fetch, Resolve, Condition, ActuallyTaken, Update, IsLoad, TablesShape;
    TakenMatches(s.idEx.op, Operand1(s), Operand2(s));
  }

  /** A fetch after a bubble in EX, or behind a full one, sees the tables of the instructions that left EX. */
  lemma SeenAfterBubble(prog: Bytes, a: Arch, bp: Option<Tables>, k: nat, held: bool)
    requires bp.Some? ==> TablesShape(bp.value)
    requires Bubbled(prog, a, bp, k, held)
    ensures !held ==> Seen(prog, a, bp, k) == k
    ensures held && !Missed(prog, a, bp, k) ==> Seen(prog, a, bp, k + 1) == k
  {
    hide Missed, LoadUseAt, State, TablesShape;
  }

  lemma SeenBehind(prog: Bytes, a: Arch, bp: Option<Tables>, k: nat)
    requires bp.Some? ==> TablesShape(bp.value)
    requires !Missed(prog, a, bp, k) && !Missed(prog, a, bp, k + 1) && !LoadUseAt(prog, State(prog, a, k))
    ensures Seen(prog, a, bp, k + 2) == k
  {
    hide Missed, LoadUseAt, State, TablesShape;
  }

  /** What fetch delivers is the direction of instruction j. */
  lemma FetchGuess(prog: Bytes, a: Arch, bp: Option<Tables>, m: Machine, k: nat, j: nat)
    requires (bp.Some? ==> TablesShape(bp.value)) && WellFormed(m) && m.bp == TablesAfter(prog, a, bp, k)
    requires Seen(prog, a, bp, j) == k && m.pipe.pc == State(prog, a, j).pc
    ensures InputsOf(m).prediction.taken == Direction(prog, a, bp, j)
  {
    hide Predict, TablesAt, State, Shape, FetchAsked, DataAsked, TablesShape, Seen;
  }

  /** Where fetch is, when what it follows leads to it. */
  lemma OnThePath(prog: Bytes, a: Arch, s: Pipe, k: nat)
    requires s.idEx.valid ==> IdExFor(prog, s.idEx, State(prog, a, k), s)
    requires FrontFor(prog, s.idEx, s.ifId, s.pc, State(prog, a, k)) && Leads(prog, State(prog, a, k), s.idEx)
    requires s.ifId.valid
    ensures s.ifId.pc == State(prog, a, k + Bit(s.idEx.valid)).pc
  {
    hide Decode, Fetch, Resolve, State, TakenAt, RedirectTarget, NextPc, Guess, IsHalting;
    var f := State(prog, a, k);
    StateAfter(prog, a, k, s.idEx.valid);
    if s.idEx.valid {
      RedirectIsMiss(prog, s, f);
      FlowRedirect(prog, s.idEx, f, Operand1(s), Operand2(s));
    }
  }

  /** What a flowing cycle starts from: k instructions have left EX, and the next does not halt. */
  ghost predicate Flowing(prog: Bytes, a: Arch, bp: Option<Tables>, m: Machine, k: nat)
    requires WellFormed(m)
  {
    var s := m.pipe;
    && (bp.Some? ==> TablesShape(bp.value)) && m.bp == TablesAfter(prog, a, bp, k)
    && InputsOf(m).fetchReady && (s.idEx.valid ==> s.ifId.valid)
    && (s.idEx.valid ==> IdExFor(prog, s.idEx, State(prog, a, k), s) && !IsHalting(s.idEx.op))
    && FrontFor(prog, s.idEx, s.ifId, s.pc, State(prog, a, k))
    && FrontGuess(prog, a, bp, s.idEx, s.ifId, k)
  }

  /** What EX decides is what the replay says. */
  lemma ExFollows(prog: Bytes, a: Arch, bp: Option<Tables>, m: Machine, k: nat)
    requires WellFormed(m) && Flowing(prog, a, bp, m, k) && m.pipe.idEx.valid
    ensures Redirecting(m.pipe) == Missed(prog, a, bp, k)
    ensures !Redirecting(m.pipe) ==> Leads(prog, State(prog, a, k), m.pipe.idEx)
    ensures !Redirecting(m.pipe) ==> LoadUse(m.pipe.idEx, m.pipe.ifId) == LoadUseAt(prog, State(prog, a, k))
  {
    hide Redirecting, LoadUse, LoadUseAt, State, Direction, TakenAt, FrontFor, InputsOf, WellFormed, Resolve, Decode,
         Fetch;
    var s := m.pipe;
    RedirectIsMiss(prog, s, State(prog, a, k));
    ExAgrees(prog, s, State(prog, a, k));
  }

  lemma RedirectsBubble(prog: Bytes, a: Arch, bp: Option<Tables>, k: nat)
    requires (bp.Some? ==> TablesShape(bp.value)) && Missed(prog, a, bp, k)
    ensures FrontGuess(prog, a, bp, ID_BUBBLE, IF_BUBBLE, k + 1)
  {
    hide Missed, TablesShape;
  }

  lemma HoldsBubble(prog: Bytes, a: Arch, bp: Option<Tables>, x: IdEx, f: IfId, k: nat)
    requires (bp.Some? ==> TablesShape(bp.value)) && FrontGuess(prog, a, bp, x, f, k)
    requires x.valid && f.valid && Leads(prog, State(prog, a, k), x) && LoadUseAt(prog, State(prog, a, k))
    ensures FrontGuess(prog, a, bp, ID_BUBBLE, f, k + 1)
  {
    hide Missed, LoadUseAt, State, Direction, TablesShape, TakenAt, Halted;
    assert Bubbled(prog, a, bp, k + 1, true);
    hide Bubbled;
  }

  /** The prediction of a cycle in which ID and IF advance. */
  lemma FetchFollows(prog: Bytes, a: Arch, bp: Option<Tables>, m: Machine, k: nat, t: Pipe)
    requires WellFormed(m) && Flowing(prog, a, bp, m, k)
    requires !Redirecting(m.pipe) && !LoadUse(m.pipe.idEx, m.pipe.ifId)
    requires t.idEx == DecodeOut(m.pipe.ifId, m.pipe.regs) && t.ifId == FetchOut(prog, m.pipe.pc, InputsOf(m))
    requires var k' := k + Bit(m.pipe.idEx.valid);
      && (t.idEx.valid ==> IdExFor(prog, t.idEx, State(prog, a, k'), t))
      && FrontFor(prog, t.idEx, t.ifId, t.pc, State(prog, a, k'))
    ensures FrontGuess(prog, a, bp, t.idEx, t.ifId, k + Bit(m.pipe.idEx.valid))
  {
    hide Redirecting, LoadUse, LoadUseAt, State, Direction, TakenAt, FrontFor, InputsOf, WellFormed, IdExFor,
         TablesShape, TablesAfter, IsHalting, Halted, Seen;
    var s := m.pipe;
    var k' := k + Bit(s.idEx.valid);
    if s.idEx.valid { ExFollows(prog, a, bp, m, k); }
    Delivers(prog, s, InputsOf(m));
    if Leads(prog, State(prog, a, k'), t.idEx) {
      OnThePath(prog, a, t, k');
      if s.idEx.valid {
        SeenBehind(prog, a, bp, k);
      } else {
        SeenAfterBubble(prog, a, bp, k, s.ifId.valid);
      }
      FetchGuess(prog, a, bp, m, k, k' + Bit(t.idEx.valid));
    }
  }

  lemma Delivers(prog: Bytes, s: Pipe, i: Inputs)
    ensures var d := DecodeOut(s.ifId, s.regs);
            d.valid == s.ifId.valid && (d.valid ==> d.predictedTaken == s.ifId.predictedTaken)
    ensures var f := FetchOut(prog, s.pc, i);
      f.valid == i.fetchReady && (f.valid ==> f.pc == s.pc && f.predictedTaken == i.prediction.taken)
  {
    hide Decode, Fetch;
  }

  /** The front of the pipeline follows the replay through a flowing cycle. */
  lemma FrontFollows(prog: Bytes, a: Arch, bp: Option<Tables>, m: Machine, k: nat)
    requires WellFormed(m) && Flowing(prog, a, bp, m, k)
    requires var t := FlowStep(prog, m.pipe, InputsOf(m)); var k' := k + Bit(m.pipe.idEx.valid);
      && (t.idEx.valid ==> IdExFor(prog, t.idEx, State(prog, a, k'), t))
      && FrontFor(prog, t.idEx, t.ifId, t.pc, State(prog, a, k'))
    ensures var t := FlowStep(prog, m.pipe, InputsOf(m));
      FrontGuess(prog, a, bp, t.idEx, t.ifId, k + Bit(m.pipe.idEx.valid))
  {
    hide FlowStep, LoadUse, LoadUseAt, State, FrontFor, InputsOf, WellFormed, IdExFor, TablesShape, TablesAfter,
         Redirects, IsHalting, Halted, FrontGuess, DecodeOut, FetchOut, Operand1, Operand2, RedirectTarget,
         FetchNextPc, ExecuteOut, MemOut;
    hide MemStore, RegsAfterWb, HaltAfter, Missed, Leads;
    var s := m.pipe;
    FlowShape(prog, s, InputsOf(m), FlowStep(prog, s, InputsOf(m)));
    NoDecision(s);
    if s.idEx.valid { ExFollows(prog, a, bp, m, k); }
    if Redirecting(s) {
      RedirectsBubble(prog, a, bp, k);
    } else if LoadUse(s.idEx, s.ifId) {
      HoldsBubble(prog, a, bp, s.idEx, s.ifId, k);
    } else {
      FetchFollows(prog, a, bp, m, k, FlowStep(prog, s, InputsOf(m)));
    }
  }

  lemma NoDecision(s: Pipe)
    ensures !s.idEx.valid ==> !Redirecting(s) && !LoadUse(s.idEx, s.ifId)
  {
    hide Operand1, Operand2;
  }

  // ---- Runs ----

  predicate Guessed(prog: Bytes, a: Arch, bp: Option<Tables>, guesses: seq<bool>)
    requires bp.Some? ==> TablesShape(bp.value)
  {
    forall j | 0 <= j < |guesses| :: guesses[j] == Direction(prog, a, bp, j)
  }

  /** Tables and predicted directions are those of the replay. */
  predicate Replayed(prog: Bytes, a: Arch, bp: Option<Tables>, m: Machine, l: Ledger)
    requires bp.Some? ==> TablesShape(bp.value)
  {
    var s := m.pipe;
    && |l.predicted| == |l.missed| && Guessed(prog, a, bp, l.predicted)
    && (!HaltInWb(s) && !HaltInMem(s) ==>
          m.bp == TablesAfter(prog, a, bp, |l.missed|) && FrontGuess(prog, a, bp, s.idEx, s.ifId, |l.missed|))
  }

  lemma CaptureKeeps(s: Pipe)
    ensures StallStep(s).idEx.valid == s.idEx.valid && StallStep(s).idEx.predictedTaken == s.idEx.predictedTaken
  {
    hide Operand1, Operand2, RegsAfterWb, HaltAfter;
  }

  lemma ReplayStalls(prog: Bytes, a: Arch, bp: Option<Tables>, m: Machine, l: Ledger)
    requires (bp.Some? ==> TablesShape(bp.value)) && WellFormed(m) && m.pipe.halt.Running? && Stalling(m)
    requires !HaltInWb(m.pipe)
    requires Replayed(prog, a, bp, m, l)
    ensures Replayed(prog, a, bp, MachineTick(prog, m), LedgerTick(l, m))
  {
    hide WellFormed, Stalling, MachineTick, StallStep, Direction, TakenAt, Halted, State, LoadUseAt, Missed,
         TablesAfter, IsHalting;
    hide TablesShape;
    StallShape(prog, m);
    TickShape(prog, m);
    CaptureKeeps(m.pipe);
  }

  /** One more instruction leaves EX. */
  lemma GuessGrows(prog: Bytes, a: Arch, bp: Option<Tables>, guesses: seq<bool>, guess: bool)
    requires (bp.Some? ==> TablesShape(bp.value)) && Guessed(prog, a, bp, guesses)
    requires guess == Direction(prog, a, bp, |guesses|)
    ensures Guessed(prog, a, bp, guesses + [guess])
  {
    hide Direction, TablesShape;
  }

  lemma TablesFollow(prog: Bytes, a: Arch, bp: Option<Tables>, m: Machine, k: nat)
    requires (bp.Some? ==> TablesShape(bp.value)) && WellFormed(m) && m.pipe.halt.Running? && !Stalling(m)
    requires m.bp == TablesAfter(prog, a, bp, k)
    requires (m.pipe.idEx.valid ==> IdExFor(prog, m.pipe.idEx, State(prog, a, k), m.pipe))
    ensures MachineTick(prog, m).bp == TablesAfter(prog, a, bp, k + Bit(m.pipe.idEx.valid))
  {
    hide WellFormed, Stalling, MachineTick, TablesShape, IdExFor, TrainedBy, State, Update;
    TickShape(prog, m);
    if m.bp.Some? && m.pipe.idEx.valid { TrainedIs(prog, m.pipe, State(prog, a, k), m.bp.value); }
  }

  /** A flowing cycle that does not move a halting instruction into MEM. */
  lemma ReplayFlows(prog: Bytes, a: Arch, bp: Option<Tables>, m: Machine, k: nat)
    requires WellFormed(m) && m.pipe.halt.Running? && !Stalling(m) && Flowing(prog, a, bp, m, k)
    requires var t := MachineTick(prog, m).pipe; var k' := k + Bit(m.pipe.idEx.valid);
      && (t.idEx.valid ==> IdExFor(prog, t.idEx, State(prog, a, k'), t))
      && FrontFor(prog, t.idEx, t.ifId, t.pc, State(prog, a, k'))
    ensures var n := MachineTick(prog, m); var k' := k + Bit(m.pipe.idEx.valid);
      n.bp == TablesAfter(prog, a, bp, k') && FrontGuess(prog, a, bp, n.pipe.idEx, n.pipe.ifId, k')
  {
    hide WellFormed, Stalling, MachineTick, TablesShape, IdExFor, State, FlowStep, FrontFor, FrontGuess, TablesAfter,
         InputsOf, IsHalting;
    FlowMachine(prog, m);
    TablesFollow(prog, a, bp, m, k);
    FrontFollows(prog, a, bp, m, k);
  }

  /** The guesses after a tick. */
  lemma ReplayGuesses(prog: Bytes, a: Arch, bp: Option<Tables>, m: Machine, l: Ledger)
    requires (bp.Some? ==> TablesShape(bp.value)) && WellFormed(m) && m.pipe.halt.Running? && !HaltInWb(m.pipe)
    requires Replayed(prog, a, bp, m, l)
    ensures var l' := LedgerTick(l, m); |l'.predicted| == |l'.missed| && Guessed(prog, a, bp, l'.predicted)
  {
    hide WellFormed, Stalling, Direction, TablesShape, TablesAfter, IsHalting, Redirecting, Guessed, Leads, Bubbled;
    if !Stalling(m) && Counts(m.pipe) { GuessGrows(prog, a, bp, l.predicted, m.pipe.idEx.predictedTaken); }
  }

  /** The front of the pipeline, placed on the trace: k retired, k + W + M have left EX. */
  lemma PlacedFront(prog: Bytes, a: Arch, s: Pipe, k: nat)
    requires Inv(prog, State(prog, a, k), s) && !HaltInWb(s) && !HaltInMem(s)
    ensures var kM := k + Bit(s.memWb.valid) + Bit(s.exMem.valid);
      (s.idEx.valid ==> IdExFor(prog, s.idEx, State(prog, a, kM), s))
          && FrontFor(prog, s.idEx, s.ifId, s.pc, State(prog, a, kM))
  {
    hide Inv, IdExFor, FrontFor, ExMemFor, IsHalting, State;
    InvParts(prog, State(prog, a, k), s);
    StateAfter(prog, a, k, s.memWb.valid);
    StateAfter(prog, a, k + Bit(s.memWb.valid), s.exMem.valid);
  }

  lemma ReplayFront(prog: Bytes, a: Arch, bp: Option<Tables>, m: Machine, l: Ledger, k: nat)
    requires (bp.Some? ==> TablesShape(bp.value)) && WellFormed(m) && m.pipe.halt.Running? && !Stalling(m)
    requires Inv(prog, State(prog, a, k), m.pipe) && !HaltInWb(m.pipe) && IdealFetch(m.iport)
    requires !HaltInMem(m.pipe) ==> FrontFull(m.pipe)
    requires |l.missed| == k + Bit(m.pipe.memWb.valid) + Bit(m.pipe.exMem.valid) && Replayed(prog, a, bp, m, l)
    requires Inv(prog, State(prog, a, k + Bit(m.pipe.memWb.valid)), MachineTick(prog, m).pipe)
    ensures var n := MachineTick(prog, m);
      !HaltInWb(n.pipe) && !HaltInMem(n.pipe) ==>
        && n.bp == TablesAfter(prog, a, bp, |LedgerTick(l, m).missed|)
        && FrontGuess(prog, a, bp, n.pipe.idEx, n.pipe.ifId, |LedgerTick(l, m).missed|)
  {
    hide WellFormed, Stalling, MachineTick, TablesShape, IdExFor, State, FlowStep, FrontFor, FrontGuess, TablesAfter,
         InputsOf, Inv;
    hide IsHalting, Redirecting, Guessed, IdealFetch;
    var n := MachineTick(prog, m).pipe;
    FlowMachine(prog, m);
    FlowStages(prog, m);
    FetchReady(m);
    if !HaltInWb(n) && !HaltInMem(n) {
      PlacedFront(prog, a, m.pipe, k);
      PlacedFront(prog, a, n, k + Bit(m.pipe.memWb.valid));
      ReplayFlows(prog, a, bp, m, |l.missed|);
    }
  }

  lemma ReplayTick(prog: Bytes, a: Arch, bp: Option<Tables>, d: Mem, m: Machine, l: Ledger, k: nat)
    requires (bp.Some? ==> TablesShape(bp.value)) && Shape(d) && Quiet(d)
    requires MachineInv(prog, State(prog, a, k), m) && !HaltInWb(m.pipe) && TimeInv(prog, a, d, m, l, k)
    requires Replayed(prog, a, bp, m, l)
    requires Inv(prog, State(prog, a, k + Bit(m.pipe.memWb.valid)), MachineTick(prog, m).pipe)
    ensures Replayed(prog, a, bp, MachineTick(prog, m), LedgerTick(l, m))
  {
    hide Shape, Quiet, WellFormed, Inv, TablesShape, State, StageTimes, PortAt, Stalling, MachineTick, HaltInWb,
         HaltInMem, FrontGuess;
    hide TablesAfter, Guessed, FrontFull, LedgerTick, IdealFetch, Admissible, TablesOk;
    Ledgered(prog, a, d, m, l, k);
    FrontIsFull(prog, a, d, m, l, k);
    if Stalling(m) {
      ReplayStalls(prog, a, bp, m, l);
    } else {
      ReplayGuesses(prog, a, bp, m, l);
      ReplayFront(prog, a, bp, m, l, k);
    }
  }

  lemma ReplayBase(prog: Bytes, a: Arch, m: Machine)
    requires Starts(a, m) && WellFormed(m)
    ensures m.bp.Some? ==> TablesShape(m.bp.value)
    ensures Replayed(prog, a, m.bp, Ticks(prog, m, 0), LedgerOf(prog, m, 0))
  {
    hide Shape, State, LoadUseAt, Predict;
  }

  /** In every reachable running state, tables and predictions are those of the replay. */
  lemma {:induction false} ReplayHolds(prog: Bytes, a: Arch, m: Machine, n: nat)
    requires Starts(a, m) && Admissible(prog, a, m) && IdealFetch(m.iport) && Quiet(m.dport)
    requires WellFormed(m) && Ticks(prog, m, n).pipe.halt.Running?
    ensures m.bp.Some? ==> TablesShape(m.bp.value)
    ensures Replayed(prog, a, m.bp, Ticks(prog, m, n), LedgerOf(prog, m, n))
  {
    hide Shape, Quiet, WellFormed, Inv, TimeInv, HaltInWb, State, Admissible, MachineTick, Ticks, CommitTrace,
         LedgerOf, Starts;
    hide LedgerTick, IdealFetch, StoppedAt, Trace, Halted, Retired, Replayed, TablesShape, TablesOk;
    ReplayTables(a, m);
    if n == 0 {
      ReplayBase(prog, a, m);
    } else {
      LedgerStep(prog, m, n);
      DataShape(m);
      var r := Ticks(prog, m, n - 1);
      if r.pipe.halt.Stopped? { StaysStopped(prog, r); }
      ReplayHolds(prog, a, m, n - 1);
      TimeHolds(prog, a, m, n - 1);
      RunHolds(prog, a, m, n - 1);
      RunHolds(prog, a, m, n);
      var k := |CommitTrace(prog, m, n - 1)|;
      StopsOnlyAtWb(prog, State(prog, a, k), r);
      ReplayRetires(r);
      ReplayTick(prog, a, m.bp, m.dport, r, LedgerOf(prog, m, n - 1), k);
    }
  }

  lemma ReplayTables(a: Arch, m: Machine)
    requires Starts(a, m)
    ensures m.bp.Some? ==> TablesShape(m.bp.value)
  {
    hide Shape;
  }

  lemma ReplayRetires(m: Machine)
    requires m.pipe.halt.Running?
    ensures |Retired(m)| == Bit(m.pipe.memWb.valid)
  {
    hide CommitOf;
  }

  // ---- The cycle law of the trace ----

  /** The mispredicted ones of the first k instructions. */
  function MissCount(prog: Bytes, a: Arch, bp: Option<Tables>, k: nat): nat
    requires bp.Some? ==> TablesShape(bp.value)
  {
    if k == 0 then 0 else MissCount(prog, a, bp, k - 1) + Bit(Missed(prog, a, bp, k - 1))
  }

  lemma {:induction false} MissesReplayed(prog: Bytes, a: Arch, bp: Option<Tables>, guesses: seq<bool>)
    requires (bp.Some? ==> TablesShape(bp.value)) && Guessed(prog, a, bp, guesses)
    ensures Misses(prog, a, guesses) == MissCount(prog, a, bp, |guesses|)
  {
    hide TablesShape, TakenAt, State, Direction;
    if guesses != [] { MissesReplayed(prog, a, bp, guesses[..|guesses| - 1]); }
  }

  /** The tick that stops the core, and those after it, leave the guesses alone. */
  lemma StopKeepsGuesses(m: Machine, l: Ledger)
    requires WellFormed(m) && (m.pipe.halt.Stopped? || HaltInWb(m.pipe))
    ensures LedgerTick(l, m).predicted == l.predicted
  {
    hide WellFormed, Stalling, Redirecting, IsHalting;
  }

  lemma {:induction false} GuessedAtStop(prog: Bytes, a: Arch, m: Machine, n: nat)
    requires Starts(a, m) && Admissible(prog, a, m) && IdealFetch(m.iport) && Quiet(m.dport)
    requires WellFormed(m) && Ticks(prog, m, n).pipe.halt.Stopped?
    ensures m.bp.Some? ==> TablesShape(m.bp.value)
    ensures Guessed(prog, a, m.bp, LedgerOf(prog, m, n).predicted)
  {
    hide Shape, Quiet, WellFormed, Inv, TimeInv, HaltInWb, State, Admissible, MachineTick, Ticks, CommitTrace,
         LedgerOf, Starts;
    hide LedgerTick, IdealFetch, StoppedAt, Trace, Halted, Retired, Guessed, TablesShape, TablesOk, FrontGuess,
         TablesAfter;
    ReplayTables(a, m);
    if n == 0 {
      NotStopped(prog, a, m);
    } else {
      LedgerStep(prog, m, n);
      var r := Ticks(prog, m, n - 1);
      if r.pipe.halt.Stopped? {
        GuessedAtStop(prog, a, m, n - 1);
      } else {
        RunHolds(prog, a, m, n - 1);
        StopsOnlyAtWb(prog, State(prog, a, |CommitTrace(prog, m, n - 1)|), r);
        ReplayHolds(prog, a, m, n - 1);
      }
      StopKeepsGuesses(r, LedgerOf(prog, m, n - 1));
    }
  }

  /** What the law says of a stopped core that retired k + 1 instructions, from the trace, the first
      tables bp and the first data hierarchy d. */
  predicate TraceLaw(prog: Bytes, a: Arch, bp: Option<Tables>, d: Mem, s: Pipe, k: nat)
    requires (bp.Some? ==> TablesShape(bp.value)) && Shape(d) && Quiet(d)
  {
    var misses := MissCount(prog, a, bp, k);
    && s.instructions == k + 1
    && s.cycles == s.instructions + 4 + LoadUses(prog, a, k) + 2 * misses + DataStalls(prog, a, d, k)
    && misses <= s.mispredicts <= misses + 1
  }

  lemma LawReplayed(prog: Bytes, a: Arch, bp: Option<Tables>, d: Mem, s: Pipe, guesses: seq<bool>, k: nat)
    requires (bp.Some? ==> TablesShape(bp.value)) && Shape(d) && Quiet(d)
    requires k <= |guesses| && Guessed(prog, a, bp, guesses) && Law(prog, a, d, s, guesses[..k], k)
    ensures TraceLaw(prog, a, bp, d, s, k)
  {
    hide TablesShape, Shape, Quiet, LoadUses, DataStalls, MissCount, Misses, Direction;
    MissesReplayed(prog, a, bp, guesses[..k]);
  }

  /** The exact cycle law, counted on the interpreter's trace alone: with single-cycle instruction memory, any
      prefetch-free data hierarchy and any predictor, a stopped core has spent one cycle per retired
      instruction, four to fill the pipeline, one per load-use pair, two per instruction that the predictor,
      replayed over the trace, mispredicts, and what the data hierarchy costs beyond one cycle per access. */
  lemma CyclesOfTrace(prog: Bytes, a: Arch, m: Machine, n: nat)
    requires Starts(a, m) && Admissible(prog, a, m) && IdealFetch(m.iport) && Quiet(m.dport)
    requires WellFormed(m) && Ticks(prog, m, n).pipe.halt.Stopped?
    ensures (m.bp.Some? ==> TablesShape(m.bp.value)) && Shape(m.dport)
    ensures var k := |CommitTrace(prog, m, n)| - 1;
      0 <= k && HaltsAt(prog, a, k) && TraceLaw(prog, a, m.bp, m.dport, Ticks(prog, m, n).pipe, k)
  {
    hide WellFormed, Ticks, CommitTrace, LedgerOf, HaltsAt, Law, TraceLaw, Shape, Quiet, AlignedRun, Guessed,
         TablesShape, Starts;
    hide IdealFetch;
    ReplayTables(a, m);
    DataShape(m);
    ExactCycles(prog, a, m, n);
    GuessedAtStop(prog, a, m, n);
    var k := |CommitTrace(prog, m, n)| - 1;
    LawReplayed(prog, a, m.bp, m.dport, Ticks(prog, m, n).pipe, LedgerOf(prog, m, n).predicted, k);
  }
}
