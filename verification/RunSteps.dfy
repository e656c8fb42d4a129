/** Runs of a few given calls, step by step. */
module RunSteps {
  import opened StakingTypes
  import opened StakingRuns

  lemma {:induction false} RunAppend(cfg: Config, st: Ledger, a: seq<Call>, b: seq<Call>)
    ensures Run(cfg, st, a + b) == Run(cfg, Run(cfg, st, a), b)
    decreases |a|
  {
    if a == [] {
      assert a + b == b;
    } else {
      assert (a + b)[1..] == a[1..] + b;
      RunAppend(cfg, Step(cfg, st, a[0]), a[1..], b);
    }
  }

  lemma RunFour(cfg: Config, st: Ledger, a: Call, b: Call, c: Call, d: Call)
    ensures Run(cfg, st, [a, b, c, d]) == Step(cfg, Step(cfg, Step(cfg, Step(cfg, st, a), b), c), d)
  {
    var s1 := Step(cfg, st, a);
    var s2 := Step(cfg, s1, b);
    var s3 := Step(cfg, s2, c);
    assert [a, b, c, d][1..] == [b, c, d] && [b, c, d][1..] == [c, d] && [c, d][1..] == [d] && [d][1..] == [];
    assert Run(cfg, s3, [d]) == Step(cfg, s3, d);
    assert Run(cfg, s2, [c, d]) == Run(cfg, s3, [d]);
    assert Run(cfg, s1, [b, c, d]) == Run(cfg, s2, [c, d]);
  }

  lemma RunThree(cfg: Config, st: Ledger, a: Call, b: Call, c: Call)
    ensures Run(cfg, st, [a, b, c]) == Step(cfg, Step(cfg, Step(cfg, st, a), b), c)
  {
    var s1 := Step(cfg, st, a);
    var s2 := Step(cfg, s1, b);
    assert [a, b, c][1..] == [b, c] && [b, c][1..] == [c] && [c][1..] == [];
    assert Run(cfg, s2, [c]) == Step(cfg, s2, c);
    assert Run(cfg, s1, [b, c]) == Run(cfg, s2, [c]);
  }

  lemma RunTwo(cfg: Config, st: Ledger, a: Call, b: Call)
    ensures Run(cfg, st, [a, b]) == Step(cfg, Step(cfg, st, a), b)
  {
    var s1 := Step(cfg, st, a);
    assert [a, b][1..] == [b] && [b][1..] == [];
    assert Run(cfg, s1, [b]) == Step(cfg, s1, b);
  }
}
