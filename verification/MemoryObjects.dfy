/** src/memory/flat_mem.cpp and src/memory/cache.cpp in their own form: objects updated in place,
    behind one port type.  Every method is proved against the functions of Hierarchy, which the
    timing theorems are about, and against the bytes of ByteMemory. */
module MemoryObjects {
  import opened Words
  import B = ByteMemory
  import PlruTree
  import opened PlruBits
  import H = Hierarchy
  import opened Hierarchy

  // ---- FlatMem ----

  class FlatMem {
    const latency: Pos
    var mem: B.Bytes
    var serving: bool
    var remaining: nat

    predicate Valid()
      reads this
    {
      remaining < latency
    }

    ghost function Model(): (m: Mem)
      requires Valid()
      reads this
      ensures Shape(m)
    {
      Flat(latency, serving, remaining)
    }

    constructor (latency: nat)
      ensures Valid() && this.latency == (if latency == 0 then 1 else latency) && mem == map[]
      ensures Model() == Flat(this.latency, false, 0)
    {
      this.latency := if latency == 0 then 1 else latency;
      mem, serving, remaining := map[], false, 0;
    }

    function LoadByte(addr: Word): Byte
      reads this
    {
      B.LoadByte(mem, addr)
    }

    function LoadHalf(addr: Word): nat
      reads this
    {
      B.LoadHalf(mem, addr)
    }

    function LoadWord(addr: Word): Word
      reads this
    {
      B.LoadWord(mem, addr)
    }

    method StoreByte(addr: Word, v: Word)
      modifies this`mem
      ensures mem == B.StoreByte(old(mem), addr, v)
    {
      mem := mem[addr := v % 0x100];
    }

    method StoreHalf(addr: Word, v: Word)
      modifies this`mem
      ensures mem == B.StoreHalf(old(mem), addr, v)
    {
      mem := mem[addr := v % 0x100];
      mem := mem[Add(addr, 1) := v / 0x100 % 0x100];
    }

    method StoreWord(addr: Word, v: Word)
      modifies this`mem
      ensures mem == B.StoreWord(old(mem), addr, v)
    {
      mem := mem[addr := v % 0x100];
      mem := mem[Add(addr, 1) := v / 0x100 % 0x100];
      mem := mem[Add(addr, 2) := v / 0x1_0000 % 0x100];
      mem := mem[Add(addr, 3) := v / 0x100_0000 % 0x100];
    }

    /** The first ready call of a request starts the countdown. */
    method Ready(addr: Word, isWrite: bool) returns (served: bool)
      requires Valid()
      modifies this`serving, this`remaining
      ensures Valid() && Model() == H.Ready(old(Model()), addr, isWrite) && served == IsServed(Model())
    {
      if !serving {
        serving := true;
        remaining := latency - 1;
      }
      served := remaining == 0;
    }

    method Tick()
      requires Valid()
      modifies this`serving, this`remaining
      ensures Valid() && Model() == H.Tick(old(Model()))
    {
      if !serving { return; }
      if remaining > 0 { remaining := remaining - 1; } else { serving := false; }
    }
  }

  ghost predicate IsPow2(v: nat, k: nat) { v == Pow2(k) }

  lemma {:induction false} Pow2Once(i: nat, j: nat)
    requires Pow2(i) == Pow2(j)
    ensures i == j
  {
    if i > 0 && j > 0 { Pow2Once(i - 1, j - 1); }
  }

  /** log2_exact: v is a power of two. */
  method Log2Exact(v: nat) returns (n: nat)
    requires exists k: nat :: IsPow2(v, k)
    ensures IsPow2(v, n)
  {
    ghost var k: nat :| IsPow2(v, k);
    var u: nat := v;
    n := 0;
    while u > 1
      invariant n <= k && u == Pow2(k - n)
    {
      u := u / 2;
      n := n + 1;
    }
  }

  /** The sizes of a cache as shift amounts. */
  method NewGeometry(lineBytes: nat, sets: nat, hitLatency: nat, ways: nat, prefetch: bool,
                     degree: nat) returns (g: Geometry)
    requires exists k: nat :: IsPow2(ways, k)
    requires exists o: nat, i: nat :: IsPow2(lineBytes, o) && IsPow2(sets, i) && o + i < 32
    ensures g.Fits() && g.LineBytes() == lineBytes && g.Sets() == sets && g.WayCount() == ways
    ensures Pow2(g.wayBits) == ways
    ensures g.hitLatency == (if hitLatency == 0 then 1 else hitLatency)
    ensures g.prefetch == prefetch && g.degree == (if degree == 0 then 1 else degree)
  {
    ghost var o: nat, i: nat :| IsPow2(lineBytes, o) && IsPow2(sets, i) && o + i < 32;
    var offsetBits := Log2Exact(lineBytes);
    var indexBits := Log2Exact(sets);
    var wayBits := Log2Exact(ways);
    Pow2Once(o, offsetBits);
    Pow2Once(i, indexBits);
    g := Geometry(offsetBits, indexBits, wayBits, if hitLatency == 0 then 1 else hitLatency, prefetch,
                  if degree == 0 then 1 else degree);
  }

  // ---- The sets a line table and a bit table stand for ----

  predicate TablesFit(g: Geometry, lines: seq<Line>, bits: seq<Bit>) {
    |lines| == g.Sets() * g.WayCount() && |bits| == g.Sets() * g.WayCount()
  }

  function SetOf(g: Geometry, lines: seq<Line>, bits: seq<Bit>, i: nat): CacheSet
    requires TablesFit(g, lines, bits) && i < g.Sets()
  {
    var W := g.WayCount();
    Root(g.wayBits);
    InArray(g.Sets(), W, i);
    CacheSet(lines[i * W .. i * W + W], ToTree(bits, i * W, W, 1, 0, g.wayBits))
  }

  function SetsOf(g: Geometry, lines: seq<Line>, bits: seq<Bit>): (s: seq<CacheSet>)
    requires TablesFit(g, lines, bits)
    ensures |s| == g.Sets()
  {
    seq(g.Sets(), i requires 0 <= i < g.Sets() => SetOf(g, lines, bits, i))
  }

  lemma SetOfShape(g: Geometry, lines: seq<Line>, bits: seq<Bit>, i: nat)
    requires TablesFit(g, lines, bits) && i < g.Sets()
    ensures SetShape(g, SetOf(g, lines, bits, i))
  {
    var W := g.WayCount();
    Root(g.wayBits);
    InArray(g.Sets(), W, i);
    TreeWays(bits, i * W, W, 1, 0, g.wayBits);
    hide ToTree, NodeAt;
  }

  /** line_at: row-major by set. */
  function LineAt(g: Geometry, i: nat, way: nat): (n: nat)
    requires i < g.Sets() && way < g.WayCount()
    ensures n < g.Sets() * g.WayCount()
  {
    InArray(g.Sets(), g.WayCount(), i);
    i * g.WayCount() + way
  }

  lemma LineOfSet(g: Geometry, lines: seq<Line>, bits: seq<Bit>, i: nat, way: nat)
    requires TablesFit(g, lines, bits) && i < g.Sets() && way < g.WayCount()
    ensures |SetOf(g, lines, bits, i).lines| == g.WayCount()
    ensures SetOf(g, lines, bits, i).lines[way] == lines[LineAt(g, i, way)]
  {
    InArray(g.Sets(), g.WayCount(), i);
    hide ToTree, NodeAt;
  }

  lemma LinesOfSet(g: Geometry, lines: seq<Line>, bits: seq<Bit>, i: nat)
    requires TablesFit(g, lines, bits) && i < g.Sets()
    ensures |SetOf(g, lines, bits, i).lines| == g.WayCount()
  {
    InArray(g.Sets(), g.WayCount(), i);
    hide ToTree, NodeAt;
  }

  /** Writing one line changes that line of that set. */
  lemma WriteLine(g: Geometry, lines: seq<Line>, bits: seq<Bit>, i: nat, way: nat, L: Line)
    requires TablesFit(g, lines, bits) && i < g.Sets() && way < g.WayCount()
    ensures var s := SetsOf(g, lines, bits); var o := s[i];
      way < |o.lines| && SetsOf(g, lines[LineAt(g, i, way) := L], bits) == s[i := CacheSet(o.lines[way := L], o.plru)]
  {
    hide ToTree, NodeAt, SetOf, LineAt;
    var next := lines[LineAt(g, i, way) := L];
    LineOfSet(g, lines, bits, i, way);
    var o := SetOf(g, lines, bits, i);
    forall j | 0 <= j < g.Sets()
      ensures SetOf(g, next, bits, j) == if i == j then CacheSet(o.lines[way := L], o.plru)
        else SetOf(g, lines, bits, j)
    {
      WriteLineAt(g, lines, bits, i, way, L, j);
    }
  }

  lemma WriteLineAt(g: Geometry, lines: seq<Line>, bits: seq<Bit>, i: nat, way: nat, L: Line, j: nat)
    requires TablesFit(g, lines, bits) && i < g.Sets() && way < g.WayCount() && j < g.Sets()
    ensures |SetOf(g, lines, bits, i).lines| == g.WayCount()
    ensures var o := SetOf(g, lines, bits, i);
      SetOf(g, lines[LineAt(g, i, way) := L], bits, j) == if i == j then CacheSet(o.lines[way := L], o.plru)
        else SetOf(g, lines, bits, j)
  {
    hide ToTree, NodeAt;
    var W := g.WayCount();
    InArray(g.Sets(), W, i);
    InArray(g.Sets(), W, j);
    if i < j { Disjoint(W, i, j); }
    if j < i { Disjoint(W, j, i); }
  }

  /** Touching one set's heap changes that set's tree. */
  lemma TouchSet(g: Geometry, lines: seq<Line>, b: seq<Bit>, c: seq<Bit>, i: nat, t: PlruTree.PTree)
    requires TablesFit(g, lines, b) && TablesFit(g, lines, c) && i < g.Sets()
    requires forall j | 0 <= j < g.Sets() :: SetOf(g, lines, c, j).plru == if j == i then t
      else SetOf(g, lines, b, j).plru
    ensures var s := SetsOf(g, lines, b); SetsOf(g, lines, c) == s[i := CacheSet(s[i].lines, t)]
  {
    hide ToTree, NodeAt;
    forall j | 0 <= j < g.Sets()
      ensures SetOf(g, lines, c, j).lines == SetOf(g, lines, b, j).lines
    {
      InArray(g.Sets(), g.WayCount(), j);
    }
    hide SetOf;
  }

  // ---- The parts of Hierarchy.Begin ----

  function HitPart(g: Geometry, c: CacheState, addr: Word, w: nat, isWrite: bool): (d: CacheState)
    requires CacheShape(g, c) && w < g.WayCount()
    ensures CacheShape(g, d)
  {
    var i := IndexOf(g, addr);
    c.(sets := c.sets[i := HitIn(g, c.sets[i], w, isWrite)],
        useful := c.useful + (if c.sets[i].lines[w].prefetched then 1 else 0))
  }

  function MissPart(g: Geometry, c: CacheState, addr: Word): (d: CacheState)
    requires CacheShape(g, c)
    ensures CacheShape(g, d)
  {
    var i := IndexOf(g, addr);
    var way := H.ChooseVictim(g, c.sets[i]);
    var v := c.sets[i].lines[way];
    var d := c.(victimWay := way, pfActive := c.pfActive && !(IndexOf(g, c.pfAddr) == i && c.pfWay == way));
    if v.valid && v.dirty then d.(wbAddr := AddrOf(g, i, v.tag), phase := WriteBack) else d.(phase := MissFetch)
  }

  lemma BeginParts(g: Geometry, c: CacheState, addr: Word, isWrite: bool)
    requires CacheShape(g, c)
    ensures var w := WayOf(g, c, addr);
      var c1 := H.MaybeStartPrefetch(g, c.(curAddr := addr, curIsWrite := isWrite, lastHit := w >= 0), addr);
      && w < g.WayCount()
      && Begin(g, c, addr, isWrite)
         == if w >= 0 then HitPart(g, c1, addr, w, isWrite).(phase := HitWait, hitRemaining := g.hitLatency - 1)
            else if c1.pfActive && LineAddrOf(g, addr) == c1.pfAddr
            then c1.(victimWay := c1.pfWay, phase := PrefetchWait)
            else MissPart(g, c1, addr)
  {
    assert SetShape(g, c.sets[IndexOf(g, addr)]);
    hide H.MaybeStartPrefetch, HitIn, H.FindWay, H.ChooseVictim, IndexOf, TagOf, LineAddrOf, AddrOf, SetShape;
  }

  // ---- Cache: the line table, the demand phases and the prefetch engine ----

  class Cache {
    const g: Geometry
    const backing: Port
    const lines: array<Line>
    const repl: TreePlru
    var phase: Phase
    var curAddr: Word
    var curIsWrite: bool
    var victimWay: nat
    var wbAddr: Word
    var hitRemaining: nat
    var lastHit: bool
    var pfActive: bool
    var pfAddr: Word
    var pfWay: nat
    var pfChain: nat
    var useful: nat
    var useless: nat
    ghost const Repr: set<object>

    /** The cache's own part of Valid. */
    ghost predicate Own()
      reads this
    {
      && g.Fits() && repl.Valid() && repl.sets == g.Sets() && repl.wayBits == g.wayBits
      && lines.Length == g.Sets() * g.WayCount()
      && victimWay < g.WayCount() && pfWay < g.WayCount() && hitRemaining < g.hitLatency
    }

    /** The timing state, without the backing port. */
    ghost function State(): (c: CacheState)
      requires Own()
      reads this, lines, repl.bits
      ensures CacheShape(g, c) && c.hitRemaining < g.hitLatency
    {
      hide SetOf, SetShape;
      forall i | 0 <= i < g.Sets() ensures SetShape(g, SetOf(g, lines[..], repl.bits[..], i)) {
        SetOfShape(g, lines[..], repl.bits[..], i);
      }
      CacheState(SetsOf(g, lines[..], repl.bits[..]), phase, curAddr, curIsWrite, victimWay, wbAddr, hitRemaining,
          lastHit, pfActive, pfAddr, pfWay, pfChain, useful, useless)
    }

    lemma Fit()
      requires Own()
      ensures TablesFit(g, lines[..], repl.bits[..]) && repl.ways == g.WayCount()
    {
    }

    ghost predicate Valid()
      reads this, Repr
      decreases Repr, 0
    {
      && {this, lines, repl, repl.bits} <= Repr && backing.Repr <= Repr
      && {this, lines, repl, repl.bits} !! backing.Repr
      && Own() && backing.Valid()
    }

    ghost function Model(): (m: Mem)
      requires Valid()
      reads this, Repr
      ensures Shape(m)
      decreases Repr, 0
    {
      Cached(g, State(), backing.Model())
    }

    constructor (backing: Port, lineBytes: nat, sets: nat, hitLatency: nat, ways: nat, prefetch: bool, degree: nat)
      requires backing.Valid()
      requires exists k: nat :: IsPow2(ways, k)
      requires exists o: nat, i: nat :: IsPow2(lineBytes, o) && IsPow2(sets, i) && o + i < 32
      ensures Valid() && fresh(Repr - backing.Repr) && this.backing == backing
      ensures g.LineBytes() == lineBytes && g.Sets() == sets && g.WayCount() == ways
      ensures g.hitLatency == (if hitLatency == 0 then 1 else hitLatency)
      ensures g.prefetch == prefetch && g.degree == (if degree == 0 then 1 else degree)
      ensures Data() == backing.Data() && backing.Model() == old(backing.Model())
      ensures Model() == Cached(g, State(), backing.Model())
      ensures phase.Idle? && !pfActive && useful == 0 && useless == 0
              && (forall n | 0 <= n < lines.Length :: lines[n] == EMPTY_LINE)
              && forall n | 0 <= n < repl.bits.Length :: repl.bits[n] == 0
    {
      hide Port.Valid, Port.Model, Port.Data, SetsOf, Geometry.Sets, Geometry.WayCount, Geometry.LineBytes, H.Shape,
           CacheShape;
      var geometry := NewGeometry(lineBytes, sets, hitLatency, ways, prefetch, degree);
      var policy := new TreePlru(sets, geometry.wayBits);
      var table := new Line[sets * ways](_ => EMPTY_LINE);
      g := geometry;
      this.backing, lines, repl := backing, table, policy;
      phase, curAddr, curIsWrite, victimWay, wbAddr := Idle, 0, false, 0, 0;
      hitRemaining, lastHit, pfActive, pfAddr, pfWay := 0, false, false, 0, 0;
      pfChain, useful, useless := 0, 0, 0;
      Repr := {this, table, policy, policy.bits} + backing.Repr;
    }

    method FindWay(addr: Word) returns (w: int)
      requires Own()
      ensures w == WayOf(g, State(), addr)
    {
      hide ToTree, NodeAt, TagOf, SetOf, SetShape, CacheShape, Geometry.WayCount, Geometry.Sets, TablesFit;
      Fit();
      var i, t := IndexOf(g, addr), TagOf(g, addr);
      hide IndexOf;
      ghost var s := SetOf(g, lines[..], repl.bits[..], i);
      var n: nat := 0;
      w := -1;
      LinesOfSet(g, lines[..], repl.bits[..], i);
      while n < g.WayCount() && w < 0
        invariant n <= g.WayCount() == |s.lines|
        invariant w < 0 ==> w == -1 && H.FindWay(s.lines, t, 0) == H.FindWay(s.lines, t, n)
        invariant w >= 0 ==> H.FindWay(s.lines, t, 0) == w
      {
        LineOfSet(g, lines[..], repl.bits[..], i, n);
        var L := lines[LineAt(g, i, n)];
        if L.valid && L.tag == t { w := n; } else { n := n + 1; }
      }
    }

    /** Prefer an empty way; only consult the policy once the set is full. */
    method ChooseVictim(i: nat) returns (way: nat)
      requires Own() && i < g.Sets()
      ensures way == H.ChooseVictim(g, State().sets[i])
    {
      hide ToTree, NodeAt, SetOf, SetShape, CacheShape, Geometry.WayCount, Geometry.Sets, TablesFit, TreePlru.Tree,
           TreePlru.Valid;
      Fit();
      ghost var s := SetOf(g, lines[..], repl.bits[..], i);
      var n: nat := 0;
      LinesOfSet(g, lines[..], repl.bits[..], i);
      while n < g.WayCount()
        invariant n <= g.WayCount() == |s.lines| && FirstInvalid(s.lines, 0) == FirstInvalid(s.lines, n)
      {
        LineOfSet(g, lines[..], repl.bits[..], i, n);
        if !lines[LineAt(g, i, n)].valid { return n; }
        n := n + 1;
      }
      TreeOfSet(i);
      way := repl.Victim(i);
    }

    lemma TreeOfSet(i: nat)
      requires Own() && i < g.Sets() && TablesFit(g, lines[..], repl.bits[..])
      ensures SetOf(g, lines[..], repl.bits[..], i).plru == repl.Tree(i)
    {
      hide ToTree, NodeAt;
    }

    method InstallLine(addr: Word, way: nat, isWrite: bool, fromPrefetch: bool)
      requires Own() && way < g.WayCount()
      modifies this`useless, lines, repl.bits
      ensures Own() && State() == Install(g, old(State()), addr, way, isWrite, fromPrefetch)
    {
      hide ToTree, NodeAt, SetOf, SetShape, CacheShape, Geometry.WayCount, Geometry.Sets, TablesFit, TreePlru.Tree,
           TreePlru.Valid, LineAt;
      hide PlruTree.Touch, TagOf;
      var i := IndexOf(g, addr);
      hide IndexOf;
      Fit();
      var n := LineAt(g, i, way);
      LineOfSet(g, lines[..], repl.bits[..], i, way);
      if lines[n].valid && lines[n].prefetched { useless := useless + 1; }
      WriteAndTouch(i, way, Line(true, isWrite, fromPrefetch, TagOf(g, addr)));
    }

    /** Replace one line and mark its way as used. */
    method WriteAndTouch(i: nat, way: nat, L: Line)
      requires Own() && i < g.Sets() && way < g.WayCount()
      modifies lines, repl.bits
      ensures Own()
      ensures way < |old(State()).sets[i].lines|
      ensures State().sets == old(State()).sets[i :=
              CacheSet(old(State()).sets[i].lines[way := L], PlruTree.Touch(old(State()).sets[i].plru, way))]
    {
      hide ToTree, NodeAt, SetOf, SetShape, CacheShape, Geometry.WayCount, Geometry.Sets, TablesFit, TreePlru.Tree,
           TreePlru.Valid, LineAt;
      hide PlruTree.Touch;
      Fit();
      ghost var before, bits := lines[..], repl.bits[..];
      TreeOfSet(i);
      lines[LineAt(g, i, way)] := L;
      WriteLine(g, before, bits, i, way, L);
      ghost var now := lines[..];
      Fit();
      forall j | 0 <= j < g.Sets() ensures SetOf(g, now, bits, j).plru == repl.Tree(j) { TreeOfSet(j); }
      repl.Touch(i, way);
      Fit();
      forall j | 0 <= j < g.Sets() ensures SetOf(g, now, repl.bits[..], j).plru == repl.Tree(j) { TreeOfSet(j); }
      TouchSet(g, now, bits, repl.bits[..], i, repl.Tree(i));
    }

    /** Reserve the victim way of target for a prefetch, unless target is resident or its victim dirty. */
    method Queue(target: Word, chain: nat)
      requires Own()
      modifies this`pfAddr, this`pfWay, this`pfActive, this`pfChain
      ensures Own() && State() == H.Queue(g, old(State()), target, chain)
    {
      hide ToTree, NodeAt, SetOf, SetShape, CacheShape, Geometry.WayCount, Geometry.Sets, TablesFit, TreePlru.Tree,
           TreePlru.Valid, LineAt;
      hide TagOf, WayOf, H.ChooseVictim;
      Fit();
      var w := FindWay(target);
      if w >= 0 { return; }
      var i := IndexOf(g, target);
      hide IndexOf;
      var way := ChooseVictim(i);
      LineOfSet(g, lines[..], repl.bits[..], i, way);
      var v := lines[LineAt(g, i, way)];
      if v.valid && v.dirty { return; }
      pfAddr, pfWay, pfActive, pfChain := target, way, true, chain;
    }

    method MaybeStartPrefetch(addr: Word)
      requires Own()
      modifies this`pfAddr, this`pfWay, this`pfActive, this`pfChain
      ensures Own() && State() == H.MaybeStartPrefetch(g, old(State()), addr)
    {
      hide CacheShape, H.Queue, NextLine, LineAddrOf;
      if !g.prefetch || pfActive { return; }
      Queue(NextLine(g, LineAddrOf(g, addr)), 1);
    }

    /** The part of ready for a hit in way w. */
    method Hit(addr: Word, w: nat, isWrite: bool)
      requires Own() && w < g.WayCount()
      modifies this`useful, lines, repl.bits
      ensures Own()
      ensures State() == HitPart(g, old(State()), addr, w, isWrite)
    {
      hide ToTree, NodeAt, SetOf, SetShape, CacheShape, Geometry.WayCount, Geometry.Sets, TablesFit, TreePlru.Tree,
           TreePlru.Valid, LineAt;
      hide PlruTree.Touch;
      var i := IndexOf(g, addr);
      hide IndexOf;
      Fit();
      LineOfSet(g, lines[..], repl.bits[..], i, w);
      var L := lines[LineAt(g, i, w)];
      if L.prefetched { useful := useful + 1; }
      WriteAndTouch(i, w, L.(dirty := L.dirty || isWrite, prefetched := false));
    }

    /** The part of ready for a miss that no prefetch covers: pick the victim now, so we know if a flush
        is due, and drop a prefetch that reserved the same way. */
    method Miss(addr: Word)
      requires Own()
      modifies this`victimWay, this`pfActive, this`wbAddr, this`phase
      ensures Own()
      ensures State() == MissPart(g, old(State()), addr)
    {
      hide ToTree, NodeAt, SetOf, SetShape, CacheShape, Geometry.WayCount, Geometry.Sets, TablesFit, TreePlru.Tree,
           TreePlru.Valid, LineAt;
      hide AddrOf, H.ChooseVictim;
      var i := IndexOf(g, addr);
      hide IndexOf;
      Fit();
      victimWay := ChooseVictim(i);
      LineOfSet(g, lines[..], repl.bits[..], i, victimWay);
      if pfActive && IndexOf(g, pfAddr) == i && pfWay == victimWay { pfActive := false; }
      var v := lines[LineAt(g, i, victimWay)];
      if v.valid && v.dirty {
        wbAddr := AddrOf(g, i, v.tag);
        phase := WriteBack;
      } else {
        phase := MissFetch;
      }
    }

    /** Note the request, look it up, and keep the prefetch engine fed. */
    method LookUp(addr: Word, isWrite: bool) returns (w: int)
      requires Own()
      modifies this`curAddr, this`curIsWrite, this`lastHit, this`pfAddr, this`pfWay, this`pfActive, this`pfChain
      ensures Own() && w == WayOf(g, old(State()), addr)
      ensures State() == H.MaybeStartPrefetch(g,
              old(State()).(curAddr := addr, curIsWrite := isWrite, lastHit := w >= 0), addr)
    {
      hide SetOf, SetShape, CacheShape, Geometry.WayCount, Geometry.Sets, TablesFit, TreePlru.Tree, TreePlru.Valid;
      hide H.MaybeStartPrefetch, H.FindWay, IndexOf, TagOf, WayOf;
      w := FindWay(addr);
      curAddr, curIsWrite, lastHit := addr, isWrite, w >= 0;
      MaybeStartPrefetch(addr);
    }

    /** The part of ready that starts a request. */
    method Begin(addr: Word, isWrite: bool)
      requires Own()
      modifies this, lines, repl.bits
      ensures Own() && State() == H.Begin(g, old(State()), addr, isWrite)
    {
      hide SetOf, SetShape, CacheShape, Geometry.WayCount, Geometry.Sets, TablesFit, TreePlru.Tree, TreePlru.Valid,
           SetsOf;
      hide H.MaybeStartPrefetch, LineAddrOf, H.FindWay, IndexOf, TagOf, H.Begin, HitPart, MissPart, WayOf;
      BeginParts(g, State(), addr, isWrite);
      var w := LookUp(addr, isWrite);
      if w >= 0 {
        Hit(addr, w, isWrite);
        phase, hitRemaining := HitWait, g.hitLatency - 1;
      } else if pfActive && LineAddrOf(g, addr) == pfAddr {
        victimWay, phase := pfWay, PrefetchWait;
      } else {
        Miss(addr);
      }
    }

    method Ready(addr: Word, isWrite: bool) returns (served: bool)
      requires Own()
      modifies this, lines, repl.bits
      ensures Own() && State() == CacheReady(g, old(State()), addr, isWrite) && served == Served(State())
    {
      hide SetsOf, CacheShape, Geometry.WayCount, Geometry.Sets, TablesFit, TreePlru.Valid, H.Begin;
      if phase.Idle? { Begin(addr, isWrite); }
      served := phase.HitWait? && hitRemaining == 0;
    }

    // ---- Advancing a cycle ----

    /** The demand line has arrived. */
    method Fill()
      requires Own()
      modifies this`useless, this`phase, this`hitRemaining, lines, repl.bits
      ensures Own() && State() == H.Fill(g, old(State()))
    {
      hide SetsOf, CacheShape, Geometry.WayCount, Geometry.Sets, TablesFit, TreePlru.Valid, Install;
      InstallLine(curAddr, victimWay, curIsWrite, false);
      phase, hitRemaining := HitWait, g.hitLatency - 1;
    }

    /** The prefetched line has arrived: install it, and chain up to the configured degree. */
    method FinishPrefetch()
      requires Own() && pfActive
      modifies this`useless, this`pfAddr, this`pfWay, this`pfActive, this`pfChain, lines, repl.bits
      ensures Own() && State() == H.ServicePrefetch(g, old(State()), true)
    {
      hide SetsOf, CacheShape, Geometry.WayCount, Geometry.Sets, TablesFit, TreePlru.Valid, Install, H.Queue,
           NextLine;
      InstallLine(pfAddr, pfWay, false, true);
      pfActive := false;
      if pfChain < g.degree { Queue(NextLine(g, pfAddr), pfChain + 1); }
    }

    /** Drive the backing port for the pending prefetch, if any. */
    method ServicePrefetch()
      requires Valid()
      modifies Repr
      ensures Valid() && backing.Data() == old(backing.Data())
      ensures !old(pfActive) ==> State() == old(State()) && backing.Model() == old(backing.Model())
      ensures old(pfActive) ==>
        var b := H.Ready(old(backing.Model()), old(pfAddr), false);
        State() == H.ServicePrefetch(g, old(State()), IsServed(b)) && backing.Model() == H.Tick(b)
      decreases Repr, 0
    {
      hide SetsOf, CacheShape, Geometry.WayCount, Geometry.Sets, TablesFit, TreePlru.Valid, Install, H.Queue,
           NextLine, Shape;
      hide H.ServicePrefetch, H.Ready, H.Tick;
      if !pfActive { return; }
      NotServed();
      var served := backing.Ready(pfAddr, false);
      if served { FinishPrefetch(); }
      backing.Tick();
    }

    lemma NotServed()
      requires Own()
      ensures H.ServicePrefetch(g, State(), false) == State()
    {
    }

    /** Idle and HitWait: the demand path leaves the backing port to the prefetch engine. */
    method TickServed()
      requires Valid() && (phase.Idle? || phase.HitWait?)
      modifies Repr
      ensures Valid() && Model() == H.Tick(old(Model())) && backing.Data() == old(backing.Data())
      decreases Repr, 1
    {
      hide SetsOf, CacheShape, Geometry.WayCount, Geometry.Sets, TablesFit, TreePlru.Valid, Shape, H.ServicePrefetch,
           H.Ready, H.Tick;
      TickServes(g, State(), backing.Model());
      if phase.HitWait? {
        if hitRemaining > 0 { hitRemaining := hitRemaining - 1; } else { phase := Idle; }
      }
      ServicePrefetch();
    }

    method TickWriteBack()
      requires Valid() && phase.WriteBack?
      modifies Repr
      ensures Valid() && Model() == H.Tick(old(Model())) && backing.Data() == old(backing.Data())
      decreases Repr, 1
    {
      hide SetsOf, CacheShape, Geometry.WayCount, Geometry.Sets, TablesFit, TreePlru.Valid, Shape, H.ServicePrefetch,
           H.Ready, H.Tick;
      TickDemands(g, State(), backing.Model());
      var served := backing.Ready(wbAddr, true);
      if served { phase := MissFetch; }
      backing.Tick();
    }

    method TickMiss()
      requires Valid() && phase.MissFetch?
      modifies Repr
      ensures Valid() && Model() == H.Tick(old(Model())) && backing.Data() == old(backing.Data())
      decreases Repr, 1
    {
      hide SetsOf, CacheShape, Geometry.WayCount, Geometry.Sets, TablesFit, TreePlru.Valid, Shape, H.ServicePrefetch,
           H.Ready, H.Tick, H.Fill;
      hide IsServed;
      TickDemands(g, State(), backing.Model());
      var served := backing.Ready(curAddr, false);
      if served { Fill(); }
      backing.Tick();
    }

    method TickMerge()
      requires Valid() && phase.PrefetchWait?
      modifies Repr
      ensures Valid() && Model() == H.Tick(old(Model())) && backing.Data() == old(backing.Data())
      decreases Repr, 1
    {
      hide SetsOf, CacheShape, Geometry.WayCount, Geometry.Sets, TablesFit, TreePlru.Valid, Shape, H.ServicePrefetch,
           H.Ready, H.Tick, H.Fill;
      hide IsServed;
      TickDemands(g, State(), backing.Model());
      var served := backing.Ready(curAddr, false);
      if served { Merge(); }
      backing.Tick();
    }

    /** The demand takes over the in-flight prefetch of its line. */
    method Merge()
      requires Own()
      modifies this`useless, this`useful, this`pfActive, this`phase, this`hitRemaining, lines, repl.bits
      ensures Own() && var f := H.Fill(g, old(State())); State() == f.(useful := f.useful + 1, pfActive := false)
    {
      hide SetsOf, CacheShape, Geometry.WayCount, Geometry.Sets, TablesFit, TreePlru.Valid, H.Fill;
      Fill();
      useful, pfActive := useful + 1, false;
    }

    method Tick()
      requires Valid()
      modifies Repr
      ensures Valid() && Model() == H.Tick(old(Model())) && backing.Data() == old(backing.Data())
      decreases Repr, 2
    {
      match phase
      case Idle => TickServed();
      case HitWait => TickServed();
      case WriteBack => TickWriteBack();
      case MissFetch => TickMiss();
      case PrefetchWait => TickMerge();
    }

    /** The data path: always served by the backing memory. */
    ghost function Data(): B.Bytes
      requires Valid()
      reads this, Repr
      decreases Repr, 0
    {
      backing.Data()
    }

    function LoadByte(addr: Word): (v: Byte)
      requires Valid()
      reads this, Repr
      ensures v == B.LoadByte(Data(), addr)
      decreases Repr, 0
    {
      backing.LoadByte(addr)
    }

    function LoadHalf(addr: Word): (v: nat)
      requires Valid()
      reads this, Repr
      ensures v == B.LoadHalf(Data(), addr)
      decreases Repr, 0
    {
      backing.LoadHalf(addr)
    }

    function LoadWord(addr: Word): (v: Word)
      requires Valid()
      reads this, Repr
      ensures v == B.LoadWord(Data(), addr)
      decreases Repr, 0
    {
      backing.LoadWord(addr)
    }

    method StoreByte(addr: Word, v: Word)
      requires Valid()
      modifies Repr
      ensures Valid() && Data() == B.StoreByte(old(Data()), addr, v) && Model() == old(Model())
      decreases Repr, 0
    {
      hide Shape, CacheShape, SetsOf, B.StoreByte;
      backing.StoreByte(addr, v);
    }

    method StoreHalf(addr: Word, v: Word)
      requires Valid()
      modifies Repr
      ensures Valid() && Data() == B.StoreHalf(old(Data()), addr, v) && Model() == old(Model())
      decreases Repr, 0
    {
      hide Shape, CacheShape, SetsOf, B.StoreHalf;
      backing.StoreHalf(addr, v);
    }

    method StoreWord(addr: Word, v: Word)
      requires Valid()
      modifies Repr
      ensures Valid() && Data() == B.StoreWord(old(Data()), addr, v) && Model() == old(Model())
      decreases Repr, 0
    {
      hide Shape, CacheShape, SetsOf, B.StoreWord;
      backing.StoreWord(addr, v);
    }
  }

  datatype Level = FlatLevel(flat: FlatMem) | CacheLevel(cache: Cache)

  /** IMemory: what the core and a cache see of a memory, whichever level answers behind it. */
  class Port {
    const level: Level
    ghost const Repr: set<object>

    constructor OfFlat(m: FlatMem)
      requires m.Valid()
      ensures Valid() && Repr == {m} && level == FlatLevel(m)
    {
      level, Repr := FlatLevel(m), {m};
    }

    constructor OfCache(c: Cache)
      requires c.Valid()
      ensures Valid() && Repr == c.Repr && level == CacheLevel(c)
    {
      level, Repr := CacheLevel(c), c.Repr;
    }

    ghost predicate Valid()
      reads Repr
      decreases Repr, 1
    {
      match level
      case FlatLevel(f) => f in Repr && f.Valid()
      case CacheLevel(c) => c in Repr && c.Repr <= Repr && c.Valid()
    }

    /** The timing state of the whole tower. */
    ghost function Model(): (m: Mem)
      requires Valid()
      reads Repr
      ensures Shape(m)
      decreases Repr, 1
    {
      match level
      case FlatLevel(f) => f.Model()
      case CacheLevel(c) => c.Model()
    }

    /** The bytes of the last level. */
    ghost function Data(): B.Bytes
      requires Valid()
      reads Repr
      decreases Repr, 1
    {
      match level
      case FlatLevel(f) => f.mem
      case CacheLevel(c) => c.Data()
    }

    method Ready(addr: Word, isWrite: bool) returns (served: bool)
      requires Valid()
      modifies Repr
      ensures Valid() && Model() == H.Ready(old(Model()), addr, isWrite) && served == IsServed(Model())
      ensures Data() == old(Data())
      decreases Repr, 2
    {
      match level
      case FlatLevel(f) => served := f.Ready(addr, isWrite);
      case CacheLevel(c) => served := c.Ready(addr, isWrite);
    }

    method Tick()
      requires Valid()
      modifies Repr
      ensures Valid() && Model() == H.Tick(old(Model())) && Data() == old(Data())
      decreases Repr, 3
    {
      match level
      case FlatLevel(f) => f.Tick();
      case CacheLevel(c) => c.Tick();
    }

    function LoadByte(addr: Word): (v: Byte)
      requires Valid()
      reads Repr
      ensures v == B.LoadByte(Data(), addr)
      decreases Repr, 1
    {
      match level
      case FlatLevel(f) => f.LoadByte(addr)
      case CacheLevel(c) => c.LoadByte(addr)
    }

    function LoadHalf(addr: Word): (v: nat)
      requires Valid()
      reads Repr
      ensures v == B.LoadHalf(Data(), addr)
      decreases Repr, 1
    {
      match level
      case FlatLevel(f) => f.LoadHalf(addr)
      case CacheLevel(c) => c.LoadHalf(addr)
    }

    function LoadWord(addr: Word): (v: Word)
      requires Valid()
      reads Repr
      ensures v == B.LoadWord(Data(), addr)
      decreases Repr, 1
    {
      match level
      case FlatLevel(f) => f.LoadWord(addr)
      case CacheLevel(c) => c.LoadWord(addr)
    }

    method StoreByte(addr: Word, v: Word)
      requires Valid()
      modifies Repr
      ensures Valid() && Data() == B.StoreByte(old(Data()), addr, v) && Model() == old(Model())
      decreases Repr, 1
    {
      hide B.StoreByte;
      match level
      case FlatLevel(f) => f.StoreByte(addr, v);
      case CacheLevel(c) => c.StoreByte(addr, v);
    }

    method StoreHalf(addr: Word, v: Word)
      requires Valid()
      modifies Repr
      ensures Valid() && Data() == B.StoreHalf(old(Data()), addr, v) && Model() == old(Model())
      decreases Repr, 1
    {
      hide B.StoreHalf;
      match level
      case FlatLevel(f) => f.StoreHalf(addr, v);
      case CacheLevel(c) => c.StoreHalf(addr, v);
    }

    method StoreWord(addr: Word, v: Word)
      requires Valid()
      modifies Repr
      ensures Valid() && Data() == B.StoreWord(old(Data()), addr, v) && Model() == old(Model())
      decreases Repr, 1
    {
      hide B.StoreWord;
      match level
      case FlatLevel(f) => f.StoreWord(addr, v);
      case CacheLevel(c) => c.StoreWord(addr, v);
    }
  }
}
