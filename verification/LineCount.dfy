/** Counting the lines of a cache that satisfy a predicate. */
module LineCount {
  import opened Hierarchy

  function CountLines(f: Line -> bool, lines: seq<Line>): nat {
    if |lines| == 0 then 0
    else CountLines(f, lines[..|lines| - 1]) + (if f(lines[|lines| - 1]) then 1 else 0)
  }

  function CountSets(f: Line -> bool, sets: seq<CacheSet>): nat {
    if |sets| == 0 then 0 else CountSets(f, sets[..|sets| - 1]) + CountLines(f, sets[|sets| - 1].lines)
  }

  lemma {:induction false} CountLinesUpdate(f: Line -> bool, lines: seq<Line>, w: nat, L: Line)
    requires w < |lines|
    ensures CountLines(f, lines[w := L]) + (if f(lines[w]) then 1 else 0)
            == CountLines(f, lines) + (if f(L) then 1 else 0)
  {
    var n := |lines| - 1;
    if w < n {
      CountLinesUpdate(f, lines[..n], w, L);
      assert lines[w := L][..n] == lines[..n][w := L];
    } else {
      assert lines[w := L][..n] == lines[..n];
    }
  }

  lemma {:induction false} CountSetsUpdate(f: Line -> bool, sets: seq<CacheSet>, i: nat, s: CacheSet)
    requires i < |sets|
    ensures CountSets(f, sets[i := s]) + CountLines(f, sets[i].lines) == CountSets(f, sets) + CountLines(f, s.lines)
  {
    var n := |sets| - 1;
    if i < n {
      CountSetsUpdate(f, sets[..n], i, s);
      assert sets[i := s][..n] == sets[..n][i := s];
    } else {
      assert sets[i := s][..n] == sets[..n];
    }
  }
}
