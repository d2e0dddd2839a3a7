/** src/uarch/branch_predictor.cpp: a tagged, direct-mapped target buffer and two-bit direction
    counters, and the invariant that lets EX compare directions only. */
module Predictor {
  import opened Words
  import opened Bits
  import opened Numbers
  import opened Decoder
  import opened ByteMemory
  import opened Interpreter
  import opened Pipeline
  import opened Refinement

  datatype BtbEntry = BtbEntry(valid: bool, tag: nat, target: Word, cond: bool)

  type Counter = c: nat | c <= 3

  /** bht_entries and btb_entries are 2^bhtBits and 2^btbBits. */
  datatype Tables = Tables(bhtBits: nat, btbBits: nat, bht: seq<Counter>, btb: seq<BtbEntry>)

  predicate TablesShape(t: Tables) { |t.bht| == Pow2(t.bhtBits) && |t.btb| == Pow2(t.btbBits) }

  function NewTables(bhtBits: nat, btbBits: nat): (t: Tables)
    ensures TablesShape(t)
  {
    Tables(bhtBits, btbBits, seq(Pow2(bhtBits), _ => 1), seq(Pow2(btbBits), _ => BtbEntry(false, 0, 0, false)))
  }

  function BhtIndex(t: Tables, pc: Word): (i: nat)
    ensures i < Pow2(t.bhtBits)
  {
    LowBits(Shr(pc, 2), t.bhtBits)
  }

  function BtbIndex(t: Tables, pc: Word): (i: nat)
    ensures i < Pow2(t.btbBits)
  {
    LowBits(Shr(pc, 2), t.btbBits)
  }

  function BtbTag(t: Tables, pc: Word): nat { Shr(Shr(pc, 2), t.btbBits) }

  predicate Known(t: Tables, pc: Word)
    requires TablesShape(t)
  {
    t.btb[BtbIndex(t, pc)].valid && t.btb[BtbIndex(t, pc)].tag == BtbTag(t, pc)
  }

  function Predict(t: Tables, pc: Word): Prediction
    requires TablesShape(t)
  {
    var e := t.btb[BtbIndex(t, pc)];
    if !e.valid || e.tag != BtbTag(t, pc) then Prediction(false, 0)
    else Prediction(if e.cond then t.bht[BhtIndex(t, pc)] >= 2 else true, e.target)
  }

  function Bump(c: Counter, taken: bool): Counter {
    if taken then (if c < 3 then c + 1 else c) else (if c > 0 then c - 1 else c)
  }

  function Update(t: Tables, pc: Word, cond: bool, taken: bool, target: Word): (u: Tables)
    requires TablesShape(t)
    ensures TablesShape(u)
  {
    var i := BhtIndex(t, pc);
    t.(bht := if cond then t.bht[i := Bump(t.bht[i], taken)] else t.bht,
       btb := t.btb[BtbIndex(t, pc) := BtbEntry(true, BtbTag(t, pc), target, cond)])
  }

  // ---- The table invariant ----

  lemma WordOf(p: Word)
    ensures Shr(p, 2) == p / 4
  {
    assert Shr(p, 2) == Shr(p / 2, 1) == Shr(p / 4, 0);
  }

  /** The buffer tells two pcs apart exactly when they lie in different words. */
  lemma SameEntry(t: Tables, p: Word, q: Word)
    ensures BtbIndex(t, p) == BtbIndex(t, q) && BtbTag(t, p) == BtbTag(t, q) <==> p / 4 == q / 4
  {
    SplitBits(Shr(p, 2), t.btbBits);
    SplitBits(Shr(q, 2), t.btbBits);
    WordOf(p);
    WordOf(q);
  }

  /** Hence two aligned pcs with the same index and tag are the same pc ... */
  lemma SamePc(t: Tables, p: Word, q: Word)
    requires p % 4 == 0 && q % 4 == 0 && BtbIndex(t, p) == BtbIndex(t, q) && BtbTag(t, p) == BtbTag(t, q)
    ensures p == q
  {
    SameEntry(t, p, q);
  }

  /** ... but a pc inside the word of a trained JAL is predicted to jump to that JAL's target, whatever is there. */
  lemma AliasedPrediction(t: Tables, p: Word, q: Word, target: Word)
    requires TablesShape(t) && p / 4 == q / 4
    ensures Predict(Update(t, p, false, true, target), q) == Prediction(true, target)
  {
    hide BtbIndex, BhtIndex, BtbTag;
    SameEntry(t, p, q);
    SameFields(t, Update(t, p, false, true, target), q);
  }

  /** A counter is shared by the pcs whose words are equal modulo the table size. */
  lemma SameCounter(t: Tables, p: Word, q: Word)
    ensures BhtIndex(t, p) == BhtIndex(t, q) <==> p / 4 % Pow2(t.bhtBits) == q / 4 % Pow2(t.bhtBits)
    ensures BtbIndex(t, p) == BtbIndex(t, q) <==> p / 4 % Pow2(t.btbBits) == q / 4 % Pow2(t.btbBits)
  {
    hide Pow2, Shr, LowBits;
    WordOf(p);
    WordOf(q);
    LowBitsIs(Shr(p, 2), t.bhtBits);
    LowBitsIs(Shr(q, 2), t.bhtBits);
    LowBitsIs(Shr(p, 2), t.btbBits);
    LowBitsIs(Shr(q, 2), t.btbBits);
  }

  /** What training at p touches is what predicts q: the entry, or for a conditional branch the counter. */
  predicate Shares(t: Tables, p: Word, q: Word, cond: bool) {
    p / 4 % Pow2(t.btbBits) == q / 4 % Pow2(t.btbBits)
    || (cond && p / 4 % Pow2(t.bhtBits) == q / 4 % Pow2(t.bhtBits))
  }

  /** Training at p changes no other counter and no other entry, so a pc that shares neither with p is
      predicted as before. */
  lemma TrainsOnlyItself(t: Tables, p: Word, cond: bool, taken: bool, target: Word, q: Word)
    requires TablesShape(t)
    ensures var u := Update(t, p, cond, taken, target);
      && u.bhtBits == t.bhtBits && u.btbBits == t.btbBits
      && (forall i | 0 <= i < |t.bht| && (i != BhtIndex(t, p) || !cond) :: u.bht[i] == t.bht[i])
      && (forall i | 0 <= i < |t.btb| && i != BtbIndex(t, p) :: u.btb[i] == t.btb[i])
      && (!Shares(t, p, q, cond) ==> Predict(u, q) == Predict(t, q))
  {
    var u := Update(t, p, cond, taken, target);
    SameCounter(t, p, q);
    SameFields(t, u, q);
    assert BhtIndex(u, q) == BhtIndex(t, q);
    hide BtbIndex, BhtIndex, BtbTag, Pow2, Bump;
  }

  /** Two conditional branches with different entries and a common counter: two equal outcomes of one
      decide the prediction of the other. */
  lemma SharedCounter(t: Tables, p: Word, q: Word, taken: bool, target: Word)
    requires TablesShape(t) && Known(t, q) && t.btb[BtbIndex(t, q)].cond
    requires p / 4 % Pow2(t.bhtBits) == q / 4 % Pow2(t.bhtBits)
    requires p / 4 % Pow2(t.btbBits) != q / 4 % Pow2(t.btbBits)
    ensures Predict(Update(Update(t, p, true, taken, target), p, true, taken, target), q)
            == Prediction(taken, t.btb[BtbIndex(t, q)].target)
  {
    var u := Update(t, p, true, taken, target);
    var v := Update(u, p, true, taken, target);
    SameCounter(t, p, q);
    SameFields(t, u, q); SameFields(u, v, q);
    SameFields(t, u, p);
    assert BhtIndex(u, q) == BhtIndex(t, q) == BhtIndex(v, q) && BhtIndex(u, p) == BhtIndex(t, p);
    hide BtbIndex, BhtIndex, BtbTag, Pow2;
  }

  /** e describes the branch or JAL at pc. */
  predicate EntryFor(prog: Bytes, e: BtbEntry, pc: Word) {
    var op := InstructionAt(prog, pc).op;
    Predictable(op) && e.cond == IsCondBranch(op) && e.target == Guess(pc, Fetch(prog, pc), true)
  }

  /** Every aligned pc the table knows is a conditional branch or a JAL, with its own target. */
  ghost predicate TablesOk(prog: Bytes, t: Tables) {
    TablesShape(t) && forall pc: Word :: pc % 4 == 0 && Known(t, pc) ==> EntryFor(prog, t.btb[BtbIndex(t, pc)], pc)
  }

  lemma NewTablesOk(prog: Bytes, bhtBits: nat, btbBits: nat)
    ensures TablesOk(prog, NewTables(bhtBits, btbBits))
  {
    hide EntryFor;
  }

  lemma PredictSound(prog: Bytes, t: Tables, pc: Word)
    requires TablesOk(prog, t) && pc % 4 == 0
    ensures Sound(prog, pc, Predict(t, pc))
  {
    hide BtbIndex, BhtIndex, BtbTag, Guess, Fetch, Decode, Predictable;
  }

  lemma UpdateOk(prog: Bytes, t: Tables, pc: Word, cond: bool, taken: bool, target: Word)
    requires TablesOk(prog, t) && pc % 4 == 0
    requires EntryFor(prog, BtbEntry(true, BtbTag(t, pc), target, cond), pc)
    ensures TablesOk(prog, Update(t, pc, cond, taken, target))
  {
    var u := Update(t, pc, cond, taken, target);
    hide BhtIndex, Guess, Fetch, Decode, Predictable, EntryFor, Bump;
    forall q: Word | q % 4 == 0 && Known(u, q)
      ensures EntryFor(prog, u.btb[BtbIndex(u, q)], q)
    {
      SameFields(t, u, q);
      if BtbIndex(t, q) == BtbIndex(t, pc) {
        SamePc(t, q, pc);
      } else {
        assert Known(t, q);
      }
    }
  }

  lemma SameFields(t: Tables, u: Tables, q: Word)
    requires t.btbBits == u.btbBits
    ensures BtbIndex(t, q) == BtbIndex(u, q) && BtbTag(t, q) == BtbTag(u, q)
  {
  }

  /** Hysteresis of the counters: two equal outcomes in a row decide the next prediction of a
      conditional branch, whatever came before; one outcome does not overturn a saturated counter. */
  lemma TwoAgree(t: Tables, pc: Word, taken: bool, target: Word)
    requires TablesShape(t)
    ensures Predict(Update(Update(t, pc, true, taken, target), pc, true, taken, target), pc)
            == Prediction(taken, target)
    ensures t.bht[BhtIndex(t, pc)] == (if taken then 0 else 3)
            ==> Predict(Update(t, pc, true, taken, target), pc).taken != taken
  {
    var u := Update(t, pc, true, taken, target);
    SameFields(t, u, pc);
    assert BhtIndex(u, pc) == BhtIndex(t, pc);
    hide BtbIndex, BhtIndex, BtbTag;
  }

  /** An outcome and the opposite one leave the counter as it was, unless the first found it saturated. */
  lemma OppositesCancel(t: Tables, pc: Word, taken: bool, target: Word)
    requires TablesShape(t) && t.bht[BhtIndex(t, pc)] != (if taken then 3 else 0)
    ensures Update(Update(t, pc, true, taken, target), pc, true, !taken, target).bht == t.bht
  {
    var u := Update(t, pc, true, taken, target);
    assert BhtIndex(u, pc) == BhtIndex(t, pc);
    hide BtbIndex, BhtIndex, BtbTag;
    var i := BhtIndex(t, pc);
    assert t.bht[i := u.bht[i]][i := t.bht[i]] == t.bht;
  }

  /** A fresh predictor predicts nothing taken, and one outcome of a branch sets its next prediction:
      the counters start weakly not taken. */
  lemma OneOutcome(bhtBits: nat, btbBits: nat, pc: Word, taken: bool, target: Word)
    ensures var t := NewTables(bhtBits, btbBits);
      Predict(t, pc) == Prediction(false, 0)
          && Predict(Update(t, pc, true, taken, target), pc) == Prediction(taken, target)
  {
    var t := NewTables(bhtBits, btbBits);
    SameFields(t, Update(t, pc, true, taken, target), pc);
    hide BtbIndex, BhtIndex, BtbTag;
  }
}
