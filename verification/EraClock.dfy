/** When eras end: by the clock of blocks alone, whatever else happens. */
module EraClock {
  import opened StakingTypes
  import opened StakingSpec
  import opened StakingRuns
  import opened Currency
  import Perbill
  import Wrappers

  /** On a block inside an era the hook changes nothing. */
  lemma NothingInside(cfg: Config, st: Ledger, block: nat)
    requires st.era.firstBlock <= block
    ensures st.era.current > 0 && block - st.era.firstBlock < st.era.length ==> OnInitialize(cfg, st, block) == st
  {
  }

  /** Setting the length changes the length alone, and is refused exactly when that is no change. */
  lemma LengthIs(st: Ledger, length: nat)
    ensures SetBlocksPerEra(st, length)
            == if length == st.era.length then Wrappers.Err(NoWritingSameValue)
               else Wrappers.Ok(st.(era := EraInfo(st.era.current, st.era.firstBlock, length)))
  {
  }

  /** The initialized blocks of a run follow each other, the first one after the given block. */
  predicate Consecutive(calls: seq<Call>, block: nat) {
    calls == [] || (if calls[0].Initialize? then calls[0].block == block + 1 && Consecutive(calls[1..], block + 1)
                    else Consecutive(calls[1..], block))
  }

  function BlockCount(calls: seq<Call>): nat {
    if calls == [] then 0 else (if calls[0].Initialize? then 1 else 0) + BlockCount(calls[1..])
  }

  predicate KeepsLength(calls: seq<Call>) {
    forall i :: 0 <= i < |calls| ==> !calls[i].BlocksPerEra?
  }

  /** At the given block the era that began at first is current, its blocks not yet over. */
  predicate Inside(st: Ledger, block: nat) {
    st.era.current > 0 && st.era.firstBlock <= block < st.era.firstBlock + st.era.length
  }

  lemma ClockUntouched(cfg: Config, st: Ledger, call: Call)
    requires !call.Initialize? && !call.BlocksPerEra?
    ensures Step(cfg, st, call).era == st.era
  {
  }

  /** The next block opens the next era if the length is reached, and leaves the clock alone otherwise. */
  lemma NextBlock(cfg: Config, st: Ledger, block: nat)
    requires Inside(st, block)
    ensures var next := Step(cfg, st, Initialize(block + 1)).era;
            next == if block + 1 < st.era.firstBlock + st.era.length then st.era
                    else EraInfo(st.era.current + 1, block + 1, st.era.length)
  {
  }

  lemma OneMore(n: nat, length: nat)
    requires length > 0
    ensures n < length ==> n / length == 0
    ensures n >= length ==> n / length == 1 + (n - length) / length
  {
    if n >= length {
      assert (n - length) / length + 1 == n / length by {
        assert n == (n - length) + length;
        DivPlus(n - length, length);
      }
    }
  }

  lemma DivPlus(n: nat, length: nat)
    requires length > 0
    ensures (n + length) / length == n / length + 1
  {
    var q, r := n / length, n % length;
    assert n == q * length + r;
    assert n + length == (q + 1) * length + r;
    DivIs(n + length, length, q + 1, r);
  }

  lemma DivIs(n: nat, length: nat, q: nat, r: nat)
    requires 0 <= r < length && n == q * length + r
    ensures n / length == q
  {
    var d := n / length;
    var m := n % length;
    assert n == d * length + m;
    if d < q {
      assert (q - d) * length >= length by {
        Perbill.MulMono(1, q - d, length);
      }
    } else if q < d {
      assert (d - q) * length >= length by {
        Perbill.MulMono(1, d - q, length);
      }
    }
  }

  /**
    Over any run through consecutive blocks that keeps the length, whatever other calls it makes, one
    era goes by for each full length: the era is still the old one before that many blocks have
    passed since its first, and the next one begins exactly then.
   */
  lemma {:induction false} RunClock(cfg: Config, st: Ledger, calls: seq<Call>, block: nat)
    requires Inside(st, block) && Consecutive(calls, block) && KeepsLength(calls)
    ensures var last := Run(cfg, st, calls);
            var now := block + BlockCount(calls);
            var passed := (now - st.era.firstBlock) / st.era.length;
            && Inside(last, now) && last.era.length == st.era.length
            && last.era.current == st.era.current + passed
            && last.era.firstBlock == st.era.firstBlock + passed * st.era.length
    decreases |calls|, 1
  {
    if calls == [] {
      OneMore(block - st.era.firstBlock, st.era.length);
    } else if calls[0].Initialize? {
      RunClockBlock(cfg, st, calls, block);
    } else {
      ClockUntouched(cfg, st, calls[0]);
      RunClock(cfg, Step(cfg, st, calls[0]), calls[1..], block);
    }
  }

  lemma {:induction false} RunClockBlock(cfg: Config, st: Ledger, calls: seq<Call>, block: nat)
    requires Inside(st, block) && Consecutive(calls, block) && KeepsLength(calls)
    requires calls != [] && calls[0].Initialize?
    ensures var last := Run(cfg, st, calls);
            var now := block + BlockCount(calls);
            var passed := (now - st.era.firstBlock) / st.era.length;
            && Inside(last, now) && last.era.length == st.era.length
            && last.era.current == st.era.current + passed
            && last.era.firstBlock == st.era.firstBlock + passed * st.era.length
    decreases |calls|, 0
  {
    var next := Step(cfg, st, calls[0]);
    NextBlock(cfg, st, block);
    RunClock(cfg, next, calls[1..], block + 1);
    if next.era != st.era {
      OneLater(st.era.firstBlock, st.era.length, block + BlockCount(calls));
    }
  }

  lemma OneLater(first: nat, length: nat, now: nat)
    requires length > 0 && first + length <= now
    ensures var passed := (now - first - length) / length;
            (now - first) / length == 1 + passed && first + (1 + passed) * length == first + length + passed * length
  {
    OneMore(now - first, length);
  }

  /** From the first block on, with the default length: one era for each so many blocks. */
  lemma ClockFromStart(cfg: Config, bank: Bank, given: nat, block: nat, calls: seq<Call>)
    requires cfg.defaultBlocksPerEra > 0 && Consecutive(calls, block) && KeepsLength(calls)
    ensures Run(cfg, Start(cfg, bank, given, block), calls).era.current
            == 1 + BlockCount(calls) / cfg.defaultBlocksPerEra
  {
    var st := Start(cfg, bank, given, block);
    StartShape(cfg, bank, given, block);
    RunClock(cfg, st, calls, block);
  }
}
