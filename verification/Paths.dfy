/** Runs of a deterministic step machine: the actions lead from one state to
    another. */
module Paths {
  ghost predicate Path<S(!new), A(!new)>(next: (S, A) -> S, s: S, actions: seq<A>, last: S)
    decreases |actions|
  {
    if actions == [] then last == s else Path(next, next(s, actions[0]), actions[1..], last)
  }

  lemma PathOne<S(!new), A(!new)>(next: (S, A) -> S, s: S, a: A, actions: seq<A>, last: S)
    requires Path(next, next(s, a), actions, last)
    ensures Path(next, s, [a] + actions, last)
  {
    assert ([a] + actions)[1..] == actions;
  }

  /** One run after another is a run. */
  lemma {:induction false} PathThen<S(!new), A(!new)>(
      next: (S, A) -> S, s: S, first: seq<A>, mid: S, second: seq<A>, last: S)
    requires Path(next, s, first, mid) && Path(next, mid, second, last)
    ensures Path(next, s, first + second, last)
    decreases |first|
  {
    if first == [] {
      assert first + second == second;
    } else {
      PathThen(next, next(s, first[0]), first[1..], mid, second, last);
      assert (first + second)[1..] == first[1..] + second;
    }
  }

  lemma PathTwo<S(!new), A(!new)>(next: (S, A) -> S, s: S, a: A, b: A)
    ensures Path(next, s, [a, b], next(next(s, a), b))
  {
    assert [a, b][1..] == [b] && [b][1..] == [];
  }

  lemma TwoSteps<S(!new), A(!new)>(next: (S, A) -> S, s: S, a: A, s1: S, b: A, s2: S)
    requires next(s, a) == s1 && next(s1, b) == s2
    ensures Path(next, s, [a, b], s2)
  {
    PathTwo(next, s, a, b);
  }

  lemma PathFour<S(!new), A(!new)>(next: (S, A) -> S, s: S, a: A, b: A, c: A, d: A)
    ensures Path(next, s, [a, b, c, d], next(next(next(next(s, a), b), c), d))
  {
    var mid := next(next(s, a), b);
    PathTwo(next, s, a, b);
    PathTwo(next, mid, c, d);
    PathThen(next, s, [a, b], mid, [c, d], next(next(mid, c), d));
    assert [a, b] + [c, d] == [a, b, c, d];
  }

  lemma FiveSteps<S(!new), A(!new)>(
      next: (S, A) -> S, s: S, a: A, s1: S, b: A, s2: S, c: A, s3: S, d: A, s4: S, e: A, s5: S)
    requires next(s, a) == s1 && next(s1, b) == s2 && next(s2, c) == s3 && next(s3, d) == s4 && next(s4, e) == s5
    ensures Path(next, s, [a, b, c, d, e], s5)
  {
    PathOne(next, s4, e, [], s5);
    assert [e] + [] == [e];
    PathOne(next, s3, d, [e], s5);
    assert [d] + [e] == [d, e];
    PathOne(next, s2, c, [d, e], s5);
    assert [c] + [d, e] == [c, d, e];
    PathOne(next, s1, b, [c, d, e], s5);
    assert [b] + [c, d, e] == [b, c, d, e];
    PathOne(next, s, a, [b, c, d, e], s5);
    assert [a] + [b, c, d, e] == [a, b, c, d, e];
  }
}
