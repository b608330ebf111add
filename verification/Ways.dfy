/** Following a deterministic step for as long as there is one. */
module Ways {
  import opened Prelude

  // Where `steps` steps lead, or where there is no next one.
  function Along<S, C>(next: S -> Option<(C, S)>, s: S, steps: nat): S
    decreases steps
  {
    if steps == 0 || next(s).None? then s else Along(next, next(s).value.1, steps - 1)
  }

  // The labels of the steps taken.
  function Labels<S, C>(next: S -> Option<(C, S)>, s: S, steps: nat): seq<C>
    decreases steps
  {
    if steps == 0 || next(s).None? then [] else [next(s).value.0] + Labels(next, next(s).value.1, steps - 1)
  }

  lemma {:induction false} AlongAdds<S, C>(next: S -> Option<(C, S)>, s: S, j: nat, k: nat)
    ensures Along(next, Along(next, s, j), k) == Along(next, s, j + k)
    ensures Labels(next, s, j) + Labels(next, Along(next, s, j), k) == Labels(next, s, j + k)
    decreases j
  {
    if j == 0 || next(s).None? {
      assert [] + Labels(next, s, k) == Labels(next, s, k);
    } else {
      var t := next(s).value.1;
      AlongAdds(next, t, j - 1, k);
      Associates([next(s).value.0], Labels(next, t, j - 1), Labels(next, Along(next, t, j - 1), k));
    }
  }

  // Where there is no next step, more steps change nothing.
  lemma EndsThere<S, C>(next: S -> Option<(C, S)>, s: S, steps: nat, more: nat)
    requires next(Along(next, s, steps)).None? && steps <= more
    ensures Along(next, s, more) == Along(next, s, steps) && Labels(next, s, more) == Labels(next, s, steps)
  {
    AlongAdds(next, s, steps, more - steps);
    assert Labels(next, s, steps) + [] == Labels(next, s, steps);
  }
}
