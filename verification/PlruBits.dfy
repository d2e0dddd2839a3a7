/** src/memory/tree_plru.cpp in its own form: each set's tree is a 1-based heap of bits in one array,
    walked root to leaf for a victim and leaf to root for a touch. */
module PlruBits {
  import opened Words
  import PlruTree
  import opened Bits

  type Bit = b: nat | b <= 1

  // ---- The tree a heap of bits stands for ----

  /** Node i, k levels above the leaves, whose leftmost leaf is way lo: leaf w has heap index ways + w. */
  predicate NodeAt(ways: nat, i: nat, lo: nat, k: nat) {
    i > 0 && Shl(i, k) == ways + lo && lo + Pow2(k) <= ways
  }

  lemma {:induction false} ShlHalves(i: nat, k: nat)
    requires k > 0
    ensures Shl(2 * i, k - 1) == Shl(i, k)
  {
    if k > 1 { ShlHalves(i, k - 1); }
  }

  lemma {:induction false} ShlNext(i: nat, k: nat)
    ensures Shl(i + 1, k) == Shl(i, k) + Pow2(k) && Shl(i, k) >= i
  {
    if k > 0 { ShlNext(i, k - 1); }
  }

  lemma {:induction false} ShlOrder(a: nat, b: nat, k: nat)
    ensures a <= b <==> Shl(a, k) <= Shl(b, k)
  {
    if k > 0 { ShlOrder(a, b, k - 1); }
  }

  lemma {:induction false} ShlPow2(d: nat, k: nat)
    ensures Shl(Pow2(d), k) == Pow2(d + k)
  {
    if k > 0 { ShlPow2(d, k - 1); }
  }

  lemma Children(ways: nat, i: nat, lo: nat, k: nat)
    requires NodeAt(ways, i, lo, k) && k > 0
    ensures NodeAt(ways, 2 * i, lo, k - 1) && NodeAt(ways, 2 * i + 1, lo + Pow2(k - 1), k - 1) && i < ways
  {
    ShlHalves(i, k);
    ShlNext(2 * i, k - 1);
    hide Shl;
  }

  lemma Leaves(ways: nat, i: nat, lo: nat)
    requires NodeAt(ways, i, lo, 0)
    ensures i == ways + lo && i >= ways
  {
    assert Pow2(0) == 1;
  }

  /** The subtree at node i of the heap that starts at `base`. */
  function ToTree(bits: seq<Bit>, base: nat, ways: nat, i: nat, lo: nat, k: nat): PlruTree.PTree
    requires NodeAt(ways, i, lo, k) && base + ways <= |bits|
    decreases k
  {
    if k == 0 then PlruTree.Leaf(lo)
    else
      Children(ways, i, lo, k);
      PlruTree.Node(bits[base + i] == 1, ToTree(bits, base, ways, 2 * i, lo, k - 1),
                    ToTree(bits, base, ways, 2 * i + 1, lo + Pow2(k - 1), k - 1))
  }

  /** The ways below a node are consecutive, and all different. */
  lemma {:induction false} TreeWays(bits: seq<Bit>, base: nat, ways: nat, i: nat, lo: nat, k: nat)
    requires NodeAt(ways, i, lo, k) && base + ways <= |bits|
    ensures var t := ToTree(bits, base, ways, i, lo, k);
      PlruTree.Perfect(t, k) && forall w :: w in PlruTree.Ways(t) <==> lo <= w < lo + Pow2(k)
    decreases k
  {
    hide NodeAt;
    if k > 0 {
      Children(ways, i, lo, k);
      TreeWays(bits, base, ways, 2 * i, lo, k - 1);
      TreeWays(bits, base, ways, 2 * i + 1, lo + Pow2(k - 1), k - 1);
    }
  }

  /** x is node i or below it. */
  predicate Under(x: nat, i: nat) { i > 0 && x >= i && (x == i || Under(x / 2, i)) }

  lemma {:induction false} UnderParent(x: nat, i: nat, child: nat)
    requires Under(x, child) && i > 0 && child / 2 == i
    ensures Under(x, i) && x != i
  {
    if x != child { UnderParent(x / 2, i, child); }
  }

  lemma {:induction false} SiblingsApart(x: nat, i: nat)
    requires i > 0 && Under(x, 2 * i)
    ensures !Under(x, 2 * i + 1)
  {
    if x != 2 * i && x != 2 * i + 1 { SiblingsApart(x / 2, i); }
  }

  /** The two heaps agree on the nodes below i. */
  predicate SameBelow(b: seq<Bit>, c: seq<Bit>, base: nat, ways: nat, i: nat)
    requires base + ways <= |b| == |c|
  {
    forall x: nat | Under(x, i) && x < ways :: b[base + x] == c[base + x]
  }

  lemma SameBelowChild(b: seq<Bit>, c: seq<Bit>, base: nat, ways: nat, i: nat, child: nat)
    requires base + ways <= |b| == |c| && SameBelow(b, c, base, ways, i) && i > 0 && child / 2 == i
    ensures SameBelow(b, c, base, ways, child)
  {
    forall x: nat | Under(x, child) && x < ways ensures b[base + x] == c[base + x] { UnderParent(x, i, child); }
  }

  /** A subtree depends on the bits of its own nodes only. */
  lemma {:induction false} TreeFrame(b: seq<Bit>, c: seq<Bit>, base: nat, ways: nat, i: nat, lo: nat, k: nat)
    requires NodeAt(ways, i, lo, k) && base + ways <= |b| && |b| == |c| && SameBelow(b, c, base, ways, i)
    ensures ToTree(b, base, ways, i, lo, k) == ToTree(c, base, ways, i, lo, k)
    decreases k
  {
    hide NodeAt, SameBelow;
    if k > 0 {
      Children(ways, i, lo, k);
      NodePositive(ways, i, lo, k);
      SameBelowChild(b, c, base, ways, i, 2 * i);
      SameBelowChild(b, c, base, ways, i, 2 * i + 1);
      TreeFrame(b, c, base, ways, 2 * i, lo, k - 1);
      TreeFrame(b, c, base, ways, 2 * i + 1, lo + Pow2(k - 1), k - 1);
      SameHere(b, c, base, ways, i);
    }
  }

  lemma SameHere(b: seq<Bit>, c: seq<Bit>, base: nat, ways: nat, i: nat)
    requires base + ways <= |b| == |c| && SameBelow(b, c, base, ways, i) && 0 < i < ways
    ensures b[base + i] == c[base + i]
  {
    assert Under(i, i);
  }

  lemma NodePositive(ways: nat, i: nat, lo: nat, k: nat)
    requires NodeAt(ways, i, lo, k)
    ensures i > 0
  {
  }

  /** A tree determines the bits of its nodes: a restored tree is a restored heap. */
  lemma {:induction false} TreeDeterminesBits(b: seq<Bit>, c: seq<Bit>, base: nat, ways: nat, i: nat, lo: nat, k: nat,
                                              x: nat)
    requires NodeAt(ways, i, lo, k) && base + ways <= |b| && |b| == |c| && x < ways && Under(x, i)
    requires ToTree(b, base, ways, i, lo, k) == ToTree(c, base, ways, i, lo, k)
    ensures b[base + x] == c[base + x]
    decreases k
  {
    hide NodeAt;
    if k == 0 {
      Leaves(ways, i, lo);
      assert false;
    }
    Children(ways, i, lo, k);
    if x != i {
      NodePositive(ways, i, lo, k);
      WhichChild(x, i);
      if Under(x, 2 * i) {
        TreeDeterminesBits(b, c, base, ways, 2 * i, lo, k - 1, x);
      } else {
        TreeDeterminesBits(b, c, base, ways, 2 * i + 1, lo + Pow2(k - 1), k - 1, x);
      }
    }
  }

  lemma {:induction false} WhichChild(x: nat, i: nat)
    requires i > 0 && Under(x, i) && x != i
    ensures Under(x, 2 * i) || Under(x, 2 * i + 1)
  {
    if x / 2 != i {
      WhichChild(x / 2, i);
    } else {
      assert x == 2 * i || x == 2 * i + 1;
    }
  }

  // ---- The class ----

  /** One level up from node i, leaf to root. */
  lemma TouchStep(before: seq<Bit>, now: seq<Bit>, next: seq<Bit>, base: nat, ways: nat, i: nat, lo: nat, k: nat,
                  way: nat,
                  p: nat, plo: nat)
    requires NodeAt(ways, p, plo, k + 1) && base + ways <= |before| == |now| == |next|
    requires p == i / 2 && lo == (if i == 2 * p then plo else plo + Pow2(k)) && lo <= way < lo + Pow2(k)
    requires NodeAt(ways, i, lo, k)
    requires ToTree(now, base, ways, i, lo, k) == PlruTree.Touch(ToTree(before, base, ways, i, lo, k), way)
    requires forall x: nat | x < ways && !Under(x, i) :: now[base + x] == before[base + x]
    requires p < ways && next == now[base + p := if i == 2 * p then 1 else 0]
    ensures ToTree(next, base, ways, p, plo, k + 1) == PlruTree.Touch(ToTree(before, base, ways, p, plo, k + 1), way)
  {
    hide NodeAt;
    Children(ways, p, plo, k + 1);
    NodePositive(ways, p, plo, k + 1);
    assert next[base + p := now[base + p]] == now;
    TreeWays(before, base, ways, 2 * p, plo, k);
    TreeWays(before, base, ways, 2 * p + 1, plo + Pow2(k), k);
    Unmoved(now, next, base, ways, p, 2 * p);
    Unmoved(now, next, base, ways, p, 2 * p + 1);
    TreeFrame(now, next, base, ways, 2 * p, plo, k);
    TreeFrame(now, next, base, ways, 2 * p + 1, plo + Pow2(k), k);
    Sibling(before, now, base, ways, p, i);
    if i == 2 * p {
      TreeFrame(before, now, base, ways, 2 * p + 1, plo + Pow2(k), k);
    } else {
      TreeFrame(before, now, base, ways, 2 * p, plo, k);
    }
  }

  /** Setting the bit of p changes no bit below its children. */
  lemma Unmoved(now: seq<Bit>, next: seq<Bit>, base: nat, ways: nat, p: nat, child: nat)
    requires base + ways <= |now| == |next| && 0 < p < ways && child / 2 == p
    requires next[base + p := now[base + p]] == now
    ensures SameBelow(now, next, base, ways, child)
  {
    forall x: nat | Under(x, child) && x < ways ensures now[base + x] == next[base + x] { UnderParent(x, p, child); }
  }

  lemma Sibling(before: seq<Bit>, now: seq<Bit>, base: nat, ways: nat, p: nat, i: nat)
    requires base + ways <= |before| == |now| && p > 0 && p == i / 2
    requires forall x: nat | x < ways && !Under(x, i) :: now[base + x] == before[base + x]
    ensures SameBelow(before, now, base, ways, if i == 2 * p then 2 * p + 1 else 2 * p)
  {
    var s := if i == 2 * p then 2 * p + 1 else 2 * p;
    forall x: nat | Under(x, s) && x < ways ensures before[base + x] == now[base + x] {
      if Under(x, 2 * p) { SiblingsApart(x, p); }
    }
  }

  lemma Root(k: nat)
    ensures NodeAt(Pow2(k), 1, 0, k)
  {
    ShlPow2(0, k);
  }

  /** Each set's heap lies inside the array. */
  lemma InArray(sets: nat, ways: nat, i: nat)
    requires i < sets
    ensures i * ways + ways <= sets * ways
  {
    assert (i + 1) * ways <= sets * ways;
  }

  /** The heaps of different sets do not overlap. */
  lemma Disjoint(ways: nat, i: nat, j: nat)
    requires i < j
    ensures i * ways + ways <= j * ways
  {
    assert (i + 1) * ways <= j * ways;
  }

  class TreePlru {
    const sets: nat
    const wayBits: nat
    const ways: nat
    const bits: array<Bit>

    ghost predicate Valid()
    {
      ways == Pow2(wayBits) && bits.Length == sets * ways
    }

    /** The tree of a set. */
    ghost function Tree(i: nat): PlruTree.PTree
      requires Valid() && i < sets
      reads bits
    {
      Root(wayBits);
      InArray(sets, ways, i);
      ToTree(bits[..], i * ways, ways, 1, 0, wayBits)
    }

    constructor (sets: nat, wayBits: nat)
      ensures Valid() && fresh(bits) && this.sets == sets && this.wayBits == wayBits
      ensures forall n | 0 <= n < bits.Length :: bits[n] == 0
    {
      this.sets := sets;
      this.wayBits := wayBits;
      ways := Pow2(wayBits);
      bits := new Bit[sets * Pow2(wayBits)](_ => 0);
    }

    method Victim(i: nat) returns (way: nat)
      requires Valid() && i < sets
      ensures way == PlruTree.Victim(Tree(i)) && way < ways
    {
      hide NodeAt, ToTree, PlruTree.Victim;
      var base := i * ways;
      var n: nat := 1;
      ghost var lo: nat, k: nat := 0, wayBits;
      Root(wayBits);
      InArray(sets, ways, i);
      while n < ways
        invariant NodeAt(ways, n, lo, k)
        invariant PlruTree.Victim(ToTree(bits[..], base, ways, n, lo, k)) == PlruTree.Victim(Tree(i))
        decreases k
      {
        NotALeaf(ways, n, lo, k);
        Children(ways, n, lo, k);
        VictimStep(bits[..], base, ways, n, lo, k);
        if bits[base + n] == 1 { lo := lo + Pow2(k - 1); }
        n := 2 * n + bits[base + n];
        k := k - 1;
      }
      ALeaf(ways, n, lo, k);
      LeafVictim(bits[..], base, ways, n, lo);
      way := n - ways;
    }

    method Touch(i: nat, way: nat)
      requires Valid() && i < sets && way < ways
      modifies bits
      ensures Tree(i) == PlruTree.Touch(old(Tree(i)), way)
      ensures forall j | 0 <= j < sets && j != i :: Tree(j) == old(Tree(j))
      ensures forall y | 0 <= y < bits.Length && !InHeap(ways, i, y) :: bits[y] == old(bits[y])
    {
      hide NodeAt, ToTree, PlruTree.Touch, Under;
      var base := i * ways;
      var n: nat := way + ways;
      ghost var before := bits[..];
      ghost var lo: nat, k: nat := way, 0;
      InArray(sets, ways, i);
      LeafStart(before, base, ways, way);
      while n > 1
        invariant n > 0 && k <= wayBits && NodeAt(ways, n, lo, k) && lo <= way < lo + Pow2(k)
        invariant Climbed(before, bits[..], base, ways, n)
        invariant ToTree(bits[..], base, ways, n, lo, k) == PlruTree.Touch(ToTree(before, base, ways, n, lo, k), way)
      {
        var parent := n / 2;
        ghost var plo := Parent(wayBits, n, lo, k);
        Children(ways, parent, plo, k + 1);
        ghost var now := bits[..];
        ParentCovers(lo, plo, k, way, n);
        bits[base + parent] := if n == 2 * parent then 1 else 0;
        assert bits[..] == now[base + parent := if n == 2 * parent then 1 else 0];
        TouchStep(before, now, bits[..], base, ways, n, lo, k, way, parent, plo);
        ClimbStep(before, now, bits[..], base, ways, n);
        n, lo, k := parent, plo, k + 1;
      }
      RootIs(wayBits, lo, k);
      forall j | 0 <= j < sets && j != i ensures Tree(j) == old(Tree(j)) {
        OtherSet(before, bits[..], sets, ways, i, j, wayBits);
      }
      OnlyHeap(before, bits[..], ways, i);
    }
  }

  /** y is the array index of a node of set i's heap; index 0 of a heap is unused. */
  predicate InHeap(ways: nat, i: nat, y: nat) { i * ways < y < i * ways + ways }

  lemma OnlyHeap(before: seq<Bit>, now: seq<Bit>, ways: nat, i: nat)
    requires i * ways + ways <= |before| && Climbed(before, now, i * ways, ways, 1)
    ensures forall y | 0 <= y < |before| && !InHeap(ways, i, y) :: now[y] == before[y]
  {
    var base := i * ways;
    forall y | 0 <= y < |before| && !InHeap(ways, i, y) ensures now[y] == before[y] {
      if base <= y < base + ways { assert y == base + 0 && !Under(0, 1); }
    }
  }

  lemma {:induction false} AllUnderRoot(x: nat)
    requires x > 0
    ensures Under(x, 1)
  {
    if x > 1 { AllUnderRoot(x / 2); }
  }

  /** The trees of a set and the bits outside its heap determine the array. */
  lemma SameArray(before: seq<Bit>, now: seq<Bit>, ways: nat, i: nat, k: nat)
    requires i * ways + ways <= |before| == |now| && NodeAt(ways, 1, 0, k)
    requires forall y | 0 <= y < |before| && !InHeap(ways, i, y) :: now[y] == before[y]
    requires ToTree(now, i * ways, ways, 1, 0, k) == ToTree(before, i * ways, ways, 1, 0, k)
    ensures now == before
  {
    hide NodeAt, ToTree;
    var base := i * ways;
    forall y | 0 <= y < |before| ensures now[y] == before[y] {
      if InHeap(ways, i, y) {
        AllUnderRoot(y - base);
        TreeDeterminesBits(now, before, base, ways, 1, 0, k, y - base);
        assert base + (y - base) == y;
      }
    }
  }

  function AllWays(ways: nat): (s: set<nat>)
    ensures forall w: nat :: w in s <==> w < ways
  {
    if ways == 0 then {} else AllWays(ways - 1) + {ways - 1}
  }

  /** `ways` steps of taking a set's victim and touching it: every way comes up exactly once, and the whole
      array of bits is as it was. */
  method EvictRound(p: TreePlru, i: nat) returns (order: seq<nat>)
    requires p.Valid() && i < p.sets
    modifies p.bits
    ensures p.bits[..] == old(p.bits[..])
    ensures PlruTree.Lists(order, AllWays(p.ways))
  {
    hide NodeAt, ToTree, PlruTree.Rotate, PlruTree.Order, PlruTree.Touch, PlruTree.Victim, PlruTree.Lists,
         TreePlru.Tree;
    ghost var before, t := p.bits[..], p.Tree(i);
    order := [];
    var n := 0;
    SetTree(p, i);
    RoundStarts(t);
    while n < p.ways
      invariant n <= p.ways && p.Tree(i) == PlruTree.Rotate(t, n) && order == PlruTree.Order(t, n)
      invariant forall y | 0 <= y < p.bits.Length && !InHeap(p.ways, i, y) :: p.bits[y] == before[y]
    {
      RoundStep(t, n);
      var way := p.Victim(i);
      p.Touch(i, way);
      order := order + [way];
      n := n + 1;
    }
    Root(p.wayBits);
    InArray(p.sets, p.ways, i);
    RoundEnds(before, i * p.ways, p.ways, p.wayBits, t, order);
    SetTree(p, i);
    SameArray(before, p.bits[..], p.ways, i, p.wayBits);
  }

  lemma SetTree(p: TreePlru, i: nat)
    requires p.Valid() && i < p.sets
    ensures i * p.ways + p.ways <= p.bits.Length && NodeAt(p.ways, 1, 0, p.wayBits)
    ensures p.Tree(i) == ToTree(p.bits[..], i * p.ways, p.ways, 1, 0, p.wayBits)
  {
    hide NodeAt, ToTree;
    Root(p.wayBits);
    InArray(p.sets, p.ways, i);
  }

  lemma RoundStarts(t: PlruTree.PTree)
    ensures PlruTree.Rotate(t, 0) == t && PlruTree.Order(t, 0) == []
  {
  }

  lemma RoundStep(t: PlruTree.PTree, n: nat)
    ensures var r := PlruTree.Rotate(t, n);
      && PlruTree.Rotate(t, n + 1) == PlruTree.Touch(r, PlruTree.Victim(r))
      && PlruTree.Order(t, n + 1) == PlruTree.Order(t, n) + [PlruTree.Victim(r)]
  {
    hide PlruTree.Touch, PlruTree.Victim;
  }

  lemma RoundEnds(bits: seq<Bit>, base: nat, ways: nat, k: nat, t: PlruTree.PTree, order: seq<nat>)
    requires ways == Pow2(k) && NodeAt(ways, 1, 0, k) && base + ways <= |bits| && t == ToTree(bits, base, ways, 1, 0, k)
    requires order == PlruTree.Order(t, ways)
    ensures PlruTree.Rotate(t, ways) == t
    ensures PlruTree.Lists(order, AllWays(ways))
  {
    hide NodeAt, ToTree, PlruTree.Rotate, PlruTree.Order, PlruTree.Perfect, PlruTree.Ways, PlruTree.Lists;
    TreeWays(bits, base, ways, 1, 0, k);
    assert PlruTree.Ways(t) == AllWays(ways);
    PlruTree.Rotation(t, k);
  }

  /** Between `before` and `now` only bits of node n and below it in this heap have changed. */
  predicate Climbed(before: seq<Bit>, now: seq<Bit>, base: nat, ways: nat, n: nat)
    requires base + ways <= |before|
  {
    && |now| == |before|
    && (forall x: nat | x < ways && !Under(x, n) :: now[base + x] == before[base + x])
    && (forall y: nat | y < |before| && !(base <= y < base + ways) :: now[y] == before[y])
  }

  lemma ClimbStep(before: seq<Bit>, now: seq<Bit>, next: seq<Bit>, base: nat, ways: nat, n: nat)
    requires base + ways <= |before| && Climbed(before, now, base, ways, n) && n > 1 && n / 2 < ways
    requires |next| == |now| && next == now[base + n / 2 := next[base + n / 2]]
    ensures Climbed(before, next, base, ways, n / 2)
  {
    forall x: nat | x < ways && !Under(x, n / 2) ensures next[base + x] == before[base + x] {
      if Under(x, n) { UnderParent(x, n / 2, n); }
      assert Under(n / 2, n / 2);
    }
  }

  lemma ParentCovers(lo: nat, plo: nat, k: nat, way: nat, n: nat)
    requires lo <= way < lo + Pow2(k) && lo == if n == 2 * (n / 2) then plo else plo + Pow2(k)
    ensures plo <= way < plo + Pow2(k + 1)
  {
  }

  lemma LeafStart(bits: seq<Bit>, base: nat, ways: nat, way: nat)
    requires base + ways <= |bits| && way < ways
    ensures NodeAt(ways, way + ways, way, 0)
    ensures ToTree(bits, base, ways, way + ways, way, 0)
            == PlruTree.Touch(ToTree(bits, base, ways, way + ways, way, 0), way)
  {
  }

  lemma OtherSet(before: seq<Bit>, now: seq<Bit>, sets: nat, ways: nat, i: nat, j: nat, k: nat)
    requires i < sets && j < sets && i != j && ways == Pow2(k) && |before| == |now| == sets * ways
    requires i * ways + ways <= |before| && Climbed(before, now, i * ways, ways, 1)
    ensures j * ways + ways <= |before| && NodeAt(ways, 1, 0, k)
    ensures ToTree(now, j * ways, ways, 1, 0, k) == ToTree(before, j * ways, ways, 1, 0, k)
  {
    hide ToTree, NodeAt, Under;
    InArray(sets, ways, j);
    Root(k);
    if i < j { Disjoint(ways, i, j); } else { Disjoint(ways, j, i); }
    assert SameBelow(now, before, j * ways, ways, 1);
    TreeFrame(now, before, j * ways, ways, 1, 0, k);
  }

  /** d levels below the root, node numbers run from 2^d to 2^(d+1) - 1. */
  lemma Level(d: nat, i: nat, lo: nat, k: nat)
    requires NodeAt(Pow2(d + k), i, lo, k)
    ensures Pow2(d) <= i < 2 * Pow2(d)
  {
    ShlPow2(d, k);
    ShlPow2(d + 1, k);
    ShlOrder(Pow2(d), i, k);
    ShlOrder(i + 1, Pow2(d + 1), k);
    ShlNext(i, k);
    hide Shl;
  }

  /** The parent of a node other than the root. */
  lemma Parent(n: nat, i: nat, lo: nat, k: nat) returns (plo: nat)
    requires k <= n && NodeAt(Pow2(n), i, lo, k) && i > 1
    ensures k < n && NodeAt(Pow2(n), i / 2, plo, k + 1) && lo == if i == 2 * (i / 2) then plo else plo + Pow2(k)
  {
    var d := n - k;
    Level(d, i, lo, k);
    assert d > 0;
    var q, p := Pow2(d - 1), i / 2;
    assert Pow2(d) == 2 * q;
    ShlHalves(p, k + 1);
    ShlNext(2 * p, k);
    ShlNext(2 * p + 1, k);
    ShlPow2(d, k);
    ShlPow2(d + 1, k);
    ShlOrder(2 * q, 2 * p, k);
    ShlOrder(2 * p + 2, 4 * q, k);
    assert Pow2(d + 1) == 4 * q;
    hide Shl;
    plo := if i == 2 * p then lo else lo - Pow2(k);
  }

  /** The root is the only node numbered 1. */
  lemma RootIs(n: nat, lo: nat, k: nat)
    requires k <= n && NodeAt(Pow2(n), 1, lo, k)
    ensures k == n && lo == 0
  {
    Level(n - k, 1, lo, k);
    ShlPow2(0, k);
    hide Shl;
  }

  lemma VictimStep(bits: seq<Bit>, base: nat, ways: nat, n: nat, lo: nat, k: nat)
    requires NodeAt(ways, n, lo, k) && base + ways <= |bits| && k > 0
    requires n < ways && NodeAt(ways, 2 * n, lo, k - 1) && NodeAt(ways, 2 * n + 1, lo + Pow2(k - 1), k - 1)
    ensures PlruTree.Victim(ToTree(bits, base, ways, n, lo, k))
            == if bits[base + n] == 1 then PlruTree.Victim(ToTree(bits, base, ways, 2 * n + 1, lo + Pow2(k - 1), k - 1))
               else PlruTree.Victim(ToTree(bits, base, ways, 2 * n, lo, k - 1))
  {
    hide NodeAt;
  }

  lemma LeafVictim(bits: seq<Bit>, base: nat, ways: nat, n: nat, lo: nat)
    requires NodeAt(ways, n, lo, 0) && base + ways <= |bits|
    ensures PlruTree.Victim(ToTree(bits, base, ways, n, lo, 0)) == lo
  {
    hide NodeAt;
  }

  lemma NotALeaf(ways: nat, n: nat, lo: nat, k: nat)
    requires NodeAt(ways, n, lo, k) && n < ways
    ensures k > 0
  {
    if k == 0 { Leaves(ways, n, lo); }
  }

  lemma ALeaf(ways: nat, n: nat, lo: nat, k: nat)
    requires NodeAt(ways, n, lo, k) && n >= ways
    ensures k == 0 && n == ways + lo && lo < ways
  {
    if k > 0 { Children(ways, n, lo, k); } else { Leaves(ways, n, lo); }
  }
}
