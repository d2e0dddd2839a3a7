/** Tree pseudo-LRU seen as a binary tree with one direction bit in each node (src/memory/tree_plru.cpp),
    and what its replacement decisions guarantee. */
module PlruTree {
  import opened Words

  /** `right` is the node's bit: 1 sends the next victim right. */
  datatype PTree = Leaf(way: nat) | Node(right: bool, l: PTree, r: PTree)

  function Ways(t: PTree): set<nat> {
    match t
    case Leaf(w) => {w}
    case Node(_, l, r) => Ways(l) + Ways(r)
  }

  /** A perfect tree of depth k with distinct ways. */
  predicate Perfect(t: PTree, k: nat) {
    match t
    case Leaf(_) => k == 0
    case Node(_, l, r) => k > 0 && Perfect(l, k - 1) && Perfect(r, k - 1) && Ways(l) !! Ways(r)
  }

  function Victim(t: PTree): nat {
    match t
    case Leaf(w) => w
    case Node(right, l, r) => if right then Victim(r) else Victim(l)
  }

  function Touch(t: PTree, way: nat): PTree {
    match t
    case Leaf(_) => t
    case Node(_, l, r) => if way in Ways(l) then Node(true, Touch(l, way), r) else Node(false, l, Touch(r, way))
  }

  lemma {:induction t} VictimIsAWay(t: PTree)
    ensures Victim(t) in Ways(t)
  {
  }

  lemma {:induction t} WaysOfTouch(t: PTree, way: nat)
    ensures Ways(Touch(t, way)) == Ways(t)
  {
  }

  lemma {:induction false} TouchKeeps(t: PTree, way: nat, k: nat)
    requires Perfect(t, k)
    ensures Perfect(Touch(t, way), k) && Ways(Touch(t, way)) == Ways(t)
  {
    match t
    case Leaf(_) =>
    case Node(_, l, r) =>
      TouchKeeps(l, way, k - 1);
      TouchKeeps(r, way, k - 1);
  }

  // ---- Protection of recently touched ways ----

  /** At every node with members of u below it on one side only, the bit points to the other side. */
  predicate Guarded(t: PTree, u: set<nat>) {
    match t
    case Leaf(_) => true
    case Node(right, l, r) =>
      && (u !! Ways(r) && !(u !! Ways(l)) ==> right)
      && (u !! Ways(l) && !(u !! Ways(r)) ==> !right)
      && Guarded(l, u) && Guarded(r, u)
  }

  lemma {:induction t} NothingTouched(t: PTree)
    ensures Guarded(t, {})
  {
  }

  lemma {:induction false} GuardedIrrelevant(t: PTree, u: set<nat>, way: nat)
    requires Guarded(t, u) && way !in Ways(t)
    ensures Guarded(t, u + {way})
  {
    match t
    case Leaf(_) =>
    case Node(_, l, r) =>
      GuardedIrrelevant(l, u, way);
      GuardedIrrelevant(r, u, way);
      assert (u + {way}) * Ways(l) == u * Ways(l) && (u + {way}) * Ways(r) == u * Ways(r);
  }

  lemma {:induction false} GuardedTouch(t: PTree, u: set<nat>, way: nat, k: nat)
    requires Perfect(t, k) && Guarded(t, u) && way in Ways(t)
    ensures Guarded(Touch(t, way), u + {way})
  {
    match t
    case Leaf(_) =>
    case Node(_, l, r) =>
      if way in Ways(l) {
        GuardedTouch(l, u, way, k - 1);
        TouchKeeps(l, way, k - 1);
        GuardedIrrelevant(r, u, way);
        assert way in (u + {way}) * Ways(l);
      } else {
        GuardedTouch(r, u, way, k - 1);
        TouchKeeps(r, way, k - 1);
        GuardedIrrelevant(l, u, way);
        assert way in (u + {way}) * Ways(r);
      }
  }

  /** The victim is never one of the guarded ways while there are at most log2(ways) of them. */
  lemma {:induction false} GuardedVictim(t: PTree, u: set<nat>, k: nat)
    requires Perfect(t, k) && Guarded(t, u) && |u * Ways(t)| <= k
    ensures Victim(t) !in u
  {
    match t
    case Leaf(w) =>
      assert u * {w} == {};
      assert w !in u * {w};
    case Node(right, l, r) =>
      var side := if right then r else l;
      var other := if right then l else r;
      VictimIsAWay(side);
      if !(u !! Ways(side)) {
        assert !(u !! Ways(other)) && u * Ways(other) != {};
        assert u * Ways(t) == u * Ways(side) + u * Ways(other);
        assert |u * Ways(t)| == |u * Ways(side)| + |u * Ways(other)|;
        GuardedVictim(side, u, k - 1);
      }
  }

  function TouchAll(t: PTree, ways: seq<nat>): PTree {
    if |ways| == 0 then t else Touch(TouchAll(t, ways[..|ways| - 1]), ways[|ways| - 1])
  }

  function SetOf(ways: seq<nat>): set<nat> { set i | 0 <= i < |ways| :: ways[i] }

  lemma {:induction false} TouchAllKeeps(t: PTree, ways: seq<nat>, k: nat)
    requires Perfect(t, k)
    ensures Perfect(TouchAll(t, ways), k) && Ways(TouchAll(t, ways)) == Ways(t)
  {
    if |ways| > 0 {
      TouchAllKeeps(t, ways[..|ways| - 1], k);
      TouchKeeps(TouchAll(t, ways[..|ways| - 1]), ways[|ways| - 1], k);
    }
  }

  lemma {:induction false} GuardedTouchAll(t: PTree, u: set<nat>, ways: seq<nat>, k: nat)
    requires Perfect(t, k) && Guarded(t, u) && SetOf(ways) <= Ways(t)
    ensures Guarded(TouchAll(t, ways), u + SetOf(ways))
  {
    if |ways| == 0 {
      assert u + SetOf(ways) == u;
    } else {
      var front, last := ways[..|ways| - 1], ways[|ways| - 1];
      assert SetOf(ways) == SetOf(front) + {last};
      assert last in SetOf(ways);
      GuardedTouchAll(t, u, front, k);
      TouchAllKeeps(t, front, k);
      GuardedTouch(TouchAll(t, front), u + SetOf(front), last, k);
      assert u + SetOf(front) + {last} == u + SetOf(ways);
    }
  }

  /** After `touch(way)` the victim cannot be `way` until at least log2(ways) distinct other ways
      have been touched. */
  lemma Survival(t: PTree, way: nat, later: seq<nat>, k: nat)
    requires Perfect(t, k) && way in Ways(t) && SetOf(later) <= Ways(t)
    ensures Victim(TouchAll(Touch(t, way), later)) == way ==> |SetOf(later) - {way}| >= k
  {
    hide Touch, TouchAll, Victim, Perfect, Ways;
    var t1 := Touch(t, way);
    var others := SetOf(later) - {way};
    NothingTouched(t);
    GuardedTouch(t, {}, way, k);
    TouchKeeps(t, way, k);
    GuardedTouchAll(t1, {} + {way}, later, k);
    TouchAllKeeps(t1, later, k);
    var u := {} + {way} + SetOf(later);
    assert u == others + {way} && u * Ways(t) == u;
    if |others| < k { GuardedVictim(TouchAll(t1, later), u, k); }
  }

  /** A shortest sequence of touches that makes `way` the victim again. */
  function Exile(t: PTree, way: nat): seq<nat> {
    match t
    case Leaf(_) => []
    case Node(_, l, r) =>
      if way in Ways(l) then Exile(l, way) + [Victim(r)] else Exile(r, way) + [Victim(l)]
  }

  lemma {:induction false} TouchAllInside(right: bool, l: PTree, r: PTree, ways: seq<nat>, inLeft: bool)
    requires SetOf(ways) <= Ways(if inLeft then l else r) && Ways(l) !! Ways(r)
    requires right == inLeft
    ensures TouchAll(Node(right, l, r), ways)
            == if inLeft then Node(true, TouchAll(l, ways), r) else Node(false, l, TouchAll(r, ways))
  {
    if |ways| > 0 {
      var front, last := ways[..|ways| - 1], ways[|ways| - 1];
      assert SetOf(front) <= SetOf(ways) && last in SetOf(ways);
      TouchAllInside(right, l, r, front, inLeft);
      WaysOfTouchAll(l, front);
      WaysOfTouchAll(r, front);
    }
  }

  lemma {:induction false} WaysOfTouchAll(t: PTree, ways: seq<nat>)
    ensures Ways(TouchAll(t, ways)) == Ways(t)
  {
    if |ways| > 0 {
      WaysOfTouchAll(t, ways[..|ways| - 1]);
      WaysOfTouch(TouchAll(t, ways[..|ways| - 1]), ways[|ways| - 1]);
    }
  }

  lemma SetOfAppend(ways: seq<nat>, w: nat)
    ensures SetOf(ways + [w]) == SetOf(ways) + {w}
  {
    forall x | x in SetOf(ways) + {w} ensures x in SetOf(ways + [w]) {
      if x == w {
        assert (ways + [w])[|ways|] == x;
      } else {
        var i :| 0 <= i < |ways| && ways[i] == x;
        assert (ways + [w])[i] == x;
      }
    }
  }

  lemma ExileNode(right: bool, l: PTree, r: PTree, way: nat, k: nat)
    requires k > 0 && Perfect(l, k - 1) && Perfect(r, k - 1) && Ways(l) !! Ways(r) && way in Ways(l) + Ways(r)
    requires var side := if way in Ways(l) then l else r;
      && SetOf(Exile(side, way)) <= Ways(side)
      && Victim(TouchAll(Touch(side, way), Exile(side, way))) == way
    ensures Victim(TouchAll(Touch(Node(right, l, r), way), Exile(Node(right, l, r), way))) == way
  {
    var inLeft := way in Ways(l);
    var side := if inLeft then l else r;
    var other := if inLeft then r else l;
    var inner, outer := Exile(side, way), Victim(other);
    VictimIsAWay(other);
    WaysOfTouch(side, way);
    TouchAllInside(inLeft, if inLeft then Touch(l, way) else l, if inLeft then r else Touch(r, way), inner, inLeft);
    WaysOfTouchAll(Touch(side, way), inner);
    assert (inner + [outer])[..|inner|] == inner;
  }

  /** What Exile promises of a tree. */
  predicate Exiles(t: PTree, way: nat, k: nat) {
    var ways := Exile(t, way);
    && Victim(TouchAll(Touch(t, way), ways)) == way
    && |ways| == k && SetOf(ways) <= Ways(t) - {way} && |SetOf(ways)| == k
  }

  lemma ExileLeaf(w: nat)
    ensures Exiles(Leaf(w), w, 0)
  {
    assert SetOf([]) == {};
  }

  lemma ExileSets(s: set<nat>, w: nat, way: nat, k: nat, u: set<nat>, v: set<nat>)
    requires |s| == k && s <= u - {way} && w in v && u !! v && way in u
    ensures |s + {w}| == k + 1 && s + {w} <= u + v - {way}
  {
  }

  lemma ExileStep(right: bool, l: PTree, r: PTree, way: nat, k: nat)
    requires Perfect(Node(right, l, r), k) && way in Ways(l) + Ways(r)
    requires Exiles(if way in Ways(l) then l else r, way, k - 1)
    ensures Exiles(Node(right, l, r), way, k)
  {
    var side := if way in Ways(l) then l else r;
    var other := if way in Ways(l) then r else l;
    VictimIsAWay(other);
    SetOfAppend(Exile(side, way), Victim(other));
    ExileNode(right, l, r, way, k);
    ExileSets(SetOf(Exile(side, way)), Victim(other), way, k - 1, Ways(side), Ways(other));
    assert Ways(side) + Ways(other) == Ways(Node(right, l, r));
    hide TouchAll, Touch, Victim, SetOf, Perfect;
  }

  /** The bound of Survival is attained: exactly log2(ways) touches of distinct other ways suffice,
      from any state. */
  lemma {:induction false} SurvivalIsTight(t: PTree, way: nat, k: nat)
    requires Perfect(t, k) && way in Ways(t)
    ensures Exiles(t, way, k)
  {
    hide Exiles;
    match t
    case Leaf(w) => ExileLeaf(w);
    case Node(right, l, r) =>
      SurvivalIsTight(if way in Ways(l) then l else r, way, k - 1);
      ExileStep(right, l, r, way, k);
  }

  // ---- Rotation ----

  function Evict(t: PTree): PTree { Touch(t, Victim(t)) }

  function Rotate(t: PTree, n: nat): PTree { if n == 0 then t else Evict(Rotate(t, n - 1)) }

  /** The ways evicted by n consecutive "take the victim, then touch it" steps. */
  function Order(t: PTree, n: nat): seq<nat> {
    if n == 0 then [] else Order(t, n - 1) + [Victim(Rotate(t, n - 1))]
  }

  lemma {:induction false} RotateKeeps(t: PTree, n: nat, k: nat)
    requires Perfect(t, k)
    ensures Perfect(Rotate(t, n), k) && Ways(Rotate(t, n)) == Ways(t)
  {
    if n > 0 { RotateKeeps(t, n - 1, k); TouchKeeps(Rotate(t, n - 1), Victim(Rotate(t, n - 1)), k); }
  }

  /** Two steps at a node are one step in each subtree. */
  lemma TwoSteps(right: bool, l: PTree, r: PTree, k: nat)
    requires Perfect(Node(right, l, r), k)
    ensures Evict(Evict(Node(right, l, r))) == Node(right, Evict(l), Evict(r))
    ensures Victim(Node(right, l, r)) == (if right then Victim(r) else Victim(l))
    ensures Victim(Evict(Node(right, l, r))) == (if right then Victim(l) else Victim(r))
  {
    VictimIsAWay(l); VictimIsAWay(r);
    WaysOfTouch(l, Victim(l)); WaysOfTouch(r, Victim(r));
  }

  lemma RotateAgain(t: PTree, n: nat)
    ensures Rotate(t, n + 2) == Evict(Evict(Rotate(t, n)))
    ensures Order(t, n + 2) == Order(t, n) + [Victim(Rotate(t, n)), Victim(Evict(Rotate(t, n)))]
  {
    assert Rotate(t, n + 2) == Evict(Rotate(t, n + 1));
    assert Rotate(t, n + 1) == Evict(Rotate(t, n));
    assert Order(t, n + 2) == Order(t, n + 1) + [Victim(Rotate(t, n + 1))];
    assert Order(t, n + 1) == Order(t, n) + [Victim(Rotate(t, n))];
  }

  lemma {:induction false} RotateNode(right: bool, l: PTree, r: PTree, n: nat, k: nat)
    requires Perfect(Node(right, l, r), k)
    ensures Rotate(Node(right, l, r), 2 * n) == Node(right, Rotate(l, n), Rotate(r, n))
  {
    if n > 0 {
      RotateNode(right, l, r, n - 1, k);
      RotateKeeps(l, n - 1, k - 1);
      RotateKeeps(r, n - 1, k - 1);
      TwoSteps(right, Rotate(l, n - 1), Rotate(r, n - 1), k);
      RotateAgain(Node(right, l, r), 2 * n - 2);
    }
  }

  /** a holds the elements of b and of c, each as often as they do. */
  predicate Merges(a: seq<nat>, b: seq<nat>, c: seq<nat>) { multiset(a) == multiset(b) + multiset(c) }

  lemma MergesMore(a: seq<nat>, b: seq<nat>, c: seq<nat>, x: nat, y: nat, a': seq<nat>)
    requires Merges(a, b, c)
    requires a' == a + [y, x] || a' == a + [x, y]
    ensures Merges(a', b + [x], c + [y])
  {
  }

  lemma OrderOnce(t: PTree, n: nat)
    requires n > 0
    ensures Order(t, n) == Order(t, n - 1) + [Victim(Rotate(t, n - 1))]
  {
  }

  lemma OrderTwice(right: bool, l: PTree, r: PTree, n: nat, k: nat)
    requires Perfect(Node(right, l, r), k) && n > 0
    ensures var x, y := Victim(Rotate(l, n - 1)), Victim(Rotate(r, n - 1));
      Order(Node(right, l, r), 2 * n) == Order(Node(right, l, r), 2 * n - 2) + (if right then [y, x] else [x, y])
  {
    RotateNode(right, l, r, n - 1, k);
    RotateKeeps(l, n - 1, k - 1);
    RotateKeeps(r, n - 1, k - 1);
    TwoSteps(right, Rotate(l, n - 1), Rotate(r, n - 1), k);
    RotateAgain(Node(right, l, r), 2 * n - 2);
    hide Order, Evict, Rotate;
  }

  lemma OrderNone(t: PTree, l: PTree, r: PTree)
    ensures Merges(Order(t, 0), Order(l, 0), Order(r, 0))
  {
  }

  lemma {:induction false} OrderNode(right: bool, l: PTree, r: PTree, n: nat, k: nat)
    requires Perfect(Node(right, l, r), k)
    ensures Merges(Order(Node(right, l, r), 2 * n), Order(l, n), Order(r, n))
  {
    hide Merges, Order, Rotate, Perfect, Victim;
    if n > 0 {
      var t := Node(right, l, r);
      OrderNode(right, l, r, n - 1, k);
      OrderTwice(right, l, r, n, k);
      OrderOnce(l, n);
      OrderOnce(r, n);
      assert 2 * (n - 1) == 2 * n - 2;
      MergesMore(Order(t, 2 * n - 2), Order(l, n - 1), Order(r, n - 1),
                 Victim(Rotate(l, n - 1)), Victim(Rotate(r, n - 1)), Order(t, 2 * n));
    } else {
      OrderNone(Node(right, l, r), l, r);
    }
  }

  predicate Lists(s: seq<nat>, ways: set<nat>) { multiset(s) == multiset(ways) }

  lemma ListsBoth(a: seq<nat>, b: seq<nat>, c: seq<nat>, u: set<nat>, v: set<nat>)
    requires Merges(a, b, c) && Lists(b, u) && Lists(c, v) && u !! v
    ensures Lists(a, u + v)
  {
    assert multiset(u + v) == multiset(u) + multiset(v);
  }

  lemma RotationLeaf(w: nat)
    ensures Rotate(Leaf(w), Pow2(0)) == Leaf(w) && Lists(Order(Leaf(w), Pow2(0)), {w})
  {
    assert Pow2(0) == 1;
    assert Rotate(Leaf(w), 1) == Evict(Rotate(Leaf(w), 0));
    OrderOnce(Leaf(w), 1);
    assert Order(Leaf(w), 1) == [w];
  }

  lemma RotationNode(right: bool, l: PTree, r: PTree, k: nat)
    requires Perfect(Node(right, l, r), k)
    requires Rotate(l, Pow2(k - 1)) == l && Rotate(r, Pow2(k - 1)) == r
    requires Lists(Order(l, Pow2(k - 1)), Ways(l)) && Lists(Order(r, Pow2(k - 1)), Ways(r))
    ensures Rotate(Node(right, l, r), Pow2(k)) == Node(right, l, r)
    ensures Lists(Order(Node(right, l, r), Pow2(k)), Ways(l) + Ways(r))
  {
    hide Rotate, Order, Merges, Lists, Ways;
    var n := Pow2(k - 1);
    assert Pow2(k) == 2 * n;
    RotateNode(right, l, r, n, k);
    OrderNode(right, l, r, n, k);
    ListsBoth(Order(Node(right, l, r), 2 * n), Order(l, n), Order(r, n), Ways(l), Ways(r));
  }

  /** From any bits, `ways` consecutive evictions take every way exactly once and restore the bits. */
  lemma {:induction false} Rotation(t: PTree, k: nat)
    requires Perfect(t, k)
    ensures Rotate(t, Pow2(k)) == t
    ensures Lists(Order(t, Pow2(k)), Ways(t))
  {
    hide Rotate, Order, Lists, Pow2;
    match t
    case Leaf(w) =>
      RotationLeaf(w);
    case Node(right, l, r) =>
      Rotation(l, k - 1);
      Rotation(r, k - 1);
      RotationNode(right, l, r, k);
  }
}
