/** States that some run leads to, from a symbol that has never been used. */
module Reachable {
  import opened Arithmetic
  import opened Primitives
  import opened Tokens
  import opened Ledger
  import opened Series
  import opened Staking

  const UNUSED: State :=
    State(Ledger(RDOT, [], [], map[], None, map[], map[], [], map[], map[], None, map[], EMPTY_BANK, None, None),
          Series(map[], map[], map[], map[], map[], map[], Some(10), 0))

  function Then(st: State, c: Call): State { Apply(st, c).0 }

  /** Some state of a run from the unused symbol. */
  ghost predicate Reached(st: State) { exists calls :: st == Run(UNUSED, calls) }

  lemma {:induction false} RunLast(st: State, calls: seq<Call>, c: Call)
    ensures Run(st, calls + [c]) == Then(Run(st, calls), c)
    decreases |calls|
  {
    hide Apply;
    if calls == [] {
      assert [] + [c] == [c] && [c][1..] == [];
      assert Run(Then(st, c), []) == Then(st, c);
    } else {
      assert (calls + [c])[1..] == calls[1..] + [c];
      RunLast(Then(st, calls[0]), calls[1..], c);
    }
  }

  lemma ReachedThen(st: State, c: Call)
    requires Reached(st)
    ensures Reached(Then(st, c))
  {
    hide Apply;
    var calls :| st == Run(UNUSED, calls);
    RunLast(UNUSED, calls, c);
  }

  lemma ReachedUnused()
    ensures Reached(UNUSED) && Genesis(UNUSED)
  {
    assert UNUSED == Run(UNUSED, []);
  }
}
